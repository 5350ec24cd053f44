/**
 Interpolating between two states of the simulation: entities are paired by id in one pass
 over both lists.
 */
module Interpolation {
  import opened TowerRules
  import opened TowerProperties

  // The pairs that one pass finds: the earlier list always advances, the later one only on a match.
  function Join<T>(prev: seq<T>, next: seq<T>, id: T -> nat): seq<(T, T)> {
    if prev == [] || next == [] then []
    else if id(prev[0]) != id(next[0]) then Join(prev[1..], next, id)
    else [(prev[0], next[0])] + Join(prev[1..], next[1..], id)
  }

  function Mixed<T>(pairs: seq<(T, T)>, mix: (T, T) -> T): seq<T> {
    if pairs == [] then [] else [mix(pairs[0].0, pairs[0].1)] + Mixed(pairs[1..], mix)
  }

  // Each pair gives one entity, mixed from the earlier and the later one in this order.
  lemma {:induction false} MixedAt<T>(pairs: seq<(T, T)>, mix: (T, T) -> T, k: nat)
    requires k < |pairs|
    ensures |Mixed(pairs, mix)| == |pairs| && Mixed(pairs, mix)[k] == mix(pairs[k].0, pairs[k].1)
  {
    if k > 0 {
      MixedAt(pairs[1..], mix, k - 1);
    } else if |pairs| > 1 {
      MixedAt(pairs[1..], mix, 0);
    }
  }

  // What the pass still has to produce from two positions on.
  function Rest<T>(prev: seq<T>, next: seq<T>, i: nat, j: nat, id: T -> nat, mix: (T, T) -> T): seq<T>
    requires i <= |prev| && j <= |next|
  {
    Mixed(Join(prev[i..], next[j..], id), mix)
  }

  lemma RestIs<T>(prev: seq<T>, next: seq<T>, i: nat, j: nat, id: T -> nat, mix: (T, T) -> T)
    requires i <= |prev| && j <= |next|
    ensures Rest(prev, next, i, j, id, mix)
         == if i == |prev| || j == |next| then []
            else if id(prev[i]) != id(next[j]) then Rest(prev, next, i + 1, j, id, mix)
            else [mix(prev[i], next[j])] + Rest(prev, next, i + 1, j + 1, id, mix)
  {
    if i < |prev| && j < |next| {
      assert prev[i..][1..] == prev[i + 1..] && next[j..][1..] == next[j + 1..];
      if id(prev[i]) == id(next[j]) {
        var rest := Join(prev[i + 1..], next[j + 1..], id);
        assert ([(prev[i], next[j])] + rest)[1..] == rest;
      }
    }
  }

  const WORD: int := 0x1_0000_0000

  lemma StepBackAndForward(j: int)
    requires 0 <= j < WORD
    ensures ((j - 1) % WORD + 1) % WORD == j
    ensures j + 1 < WORD ==> (j + 1) % WORD == j + 1
  {
  }

  // Both indices are 32-bit; a mismatch steps the second one back before it is stepped forward.
  method InterpolateEntities<T>(prev: seq<T>, next: seq<T>, id: T -> nat, mix: (T, T) -> T) returns (result: seq<T>)
    requires |prev| < WORD && |next| < WORD
    ensures result == Mixed(Join(prev, next, id), mix)
  {
    result := [];
    var i, j := 0, 0;
    assert prev[0..] == prev && next[0..] == next;
    while i < |prev| && j < |next|
      invariant 0 <= i <= |prev| && 0 <= j <= |next|
      invariant result + Rest(prev, next, i, j, id, mix) == Rest(prev, next, 0, 0, id, mix)
      decreases |prev| - i
    {
      hide Rest;
      var a, b := prev[i], next[j];
      RestIs(prev, next, i, j, id, mix);
      StepBackAndForward(j);
      if id(a) != id(b) {
        j := (j - 1) % WORD;
        i, j := i + 1, (j + 1) % WORD;
        continue;
      }
      result := result + [mix(a, b)];
      i, j := i + 1, (j + 1) % WORD;
    }
    RestIs(prev, next, i, j, id, mix);
  }

  predicate Ascending<T>(s: seq<T>, id: T -> nat) {
    forall i, j :: 0 <= i < j < |s| ==> id(s[i]) < id(s[j])
  }

  predicate Has<T>(s: seq<T>, id: T -> nat, x: nat) {
    exists i :: 0 <= i < |s| && id(s[i]) == x
  }

  // Everything in the later list was in the earlier one or comes after all of it.
  predicate Follows<T>(prev: seq<T>, next: seq<T>, id: T -> nat) {
    forall j :: 0 <= j < |next| ==>
      Has(prev, id, id(next[j])) || forall i :: 0 <= i < |prev| ==> id(prev[i]) < id(next[j])
  }

  // The pairs are exactly the entities present in both lists, in order, each with its own past.
  predicate PairsCommon<T(==)>(prev: seq<T>, next: seq<T>, id: T -> nat, pairs: seq<(T, T)>) {
    && |pairs| <= |next|
    && (forall m :: 0 <= m < |pairs| ==>
          pairs[m].1 == next[m] && pairs[m].0 in prev && id(pairs[m].0) == id(next[m]))
    && (forall m :: |pairs| <= m < |next| ==> !Has(prev, id, id(next[m])))
  }

  lemma {:induction false} JoinIsCommon<T>(prev: seq<T>, next: seq<T>, id: T -> nat)
    requires Ascending(prev, id) && Ascending(next, id) && Follows(prev, next, id)
    ensures PairsCommon(prev, next, id, Join(prev, next, id))
  {
    if prev != [] && next != [] {
      var p, q := prev[0], next[0];
      if id(p) != id(q) {
        FollowsSkip(prev, next, id);
        JoinIsCommon(prev[1..], next, id);
        forall m | 0 <= m < |next|
          ensures Has(prev, id, id(next[m])) ==> Has(prev[1..], id, id(next[m]))
        {
          SkipHas(prev, next, id, m);
        }
      } else {
        FollowsBoth(prev, next, id);
        JoinIsCommon(prev[1..], next[1..], id);
        var r := Join(prev, next, id);
        forall m | |r| <= m < |next|
          ensures !Has(prev, id, id(next[m]))
        {
          assert next[m] == next[1..][m - 1];
          MatchHas(prev, next, id, m);
        }
      }
    }
  }

  lemma MatchHas<T>(prev: seq<T>, next: seq<T>, id: T -> nat, m: nat)
    requires prev != [] && Ascending(next, id) && 0 < m < |next| && id(prev[0]) == id(next[0])
    ensures Has(prev, id, id(next[m])) ==> Has(prev[1..], id, id(next[m]))
  {
    assert id(next[0]) < id(next[m]);
    if Has(prev, id, id(next[m])) {
      var i :| 0 <= i < |prev| && id(prev[i]) == id(next[m]);
      assert prev[1..][i - 1] == prev[i];
    }
  }

  // A later entity that the skipped one could match would be out of order.
  lemma SkipHas<T>(prev: seq<T>, next: seq<T>, id: T -> nat, m: nat)
    requires prev != [] && Ascending(prev, id) && Ascending(next, id) && Follows(prev, next, id)
    requires m < |next| && id(prev[0]) != id(next[0])
    ensures id(prev[0]) < id(next[m])
    ensures Has(prev, id, id(next[m])) ==> Has(prev[1..], id, id(next[m]))
  {
    assert id(next[0]) <= id(next[m]);
    if Has(prev, id, id(next[0])) {
      var k :| 0 <= k < |prev| && id(prev[k]) == id(next[0]);
      assert id(prev[0]) < id(prev[k]);
    } else {
      assert id(prev[0]) < id(next[0]);
    }
    if Has(prev, id, id(next[m])) {
      var i :| 0 <= i < |prev| && id(prev[i]) == id(next[m]);
      assert prev[1..][i - 1] == prev[i];
    }
  }

  lemma FollowsSkip<T>(prev: seq<T>, next: seq<T>, id: T -> nat)
    requires prev != [] && next != [] && Ascending(prev, id) && Ascending(next, id) && Follows(prev, next, id)
    requires id(prev[0]) != id(next[0])
    ensures Ascending(prev[1..], id) && Follows(prev[1..], next, id)
  {
    forall m | 0 <= m < |next|
      ensures Has(prev[1..], id, id(next[m])) || forall i :: 0 <= i < |prev[1..]| ==> id(prev[1..][i]) < id(next[m])
    {
      SkipHas(prev, next, id, m);
    }
  }

  lemma FollowsBoth<T>(prev: seq<T>, next: seq<T>, id: T -> nat)
    requires prev != [] && next != [] && Ascending(prev, id) && Ascending(next, id) && Follows(prev, next, id)
    requires id(prev[0]) == id(next[0])
    ensures Ascending(prev[1..], id) && Ascending(next[1..], id) && Follows(prev[1..], next[1..], id)
  {
    forall m | 0 <= m < |next[1..]|
      ensures Has(prev[1..], id, id(next[1..][m]))
              || forall i :: 0 <= i < |prev[1..]| ==> id(prev[1..][i]) < id(next[1..][m])
    {
      var b := next[m + 1];
      assert next[1..][m] == b && id(next[0]) < id(b);
      if Has(prev, id, id(b)) {
        var i :| 0 <= i < |prev| && id(prev[i]) == id(b);
        assert prev[1..][i - 1] == prev[i];
      }
    }
  }

  // If the first entity of the later list is new, the pass finds nothing at all.
  lemma {:induction false} JoinStuck<T>(prev: seq<T>, next: seq<T>, id: T -> nat)
    requires next != [] && !Has(prev, id, id(next[0]))
    ensures Join(prev, next, id) == []
  {
    if prev != [] {
      assert id(prev[0]) != id(next[0]);
      forall i | 0 <= i < |prev[1..]|
        ensures id(prev[1..][i]) != id(next[0])
      {
        assert prev[1..][i] == prev[i + 1];
      }
      JoinStuck(prev[1..], next, id);
    }
  }

  // ---------- Enemies and towers ----------

  // After any step, the enemies and the towers that are interpolated are exactly those that
  // were there before the step and still are.
  lemma StepInterpolates(laws: Laws, mapData: MapData, s: State, cs: seq<Command>, delta: real)
    requires Lawful(laws) && ValidMap(mapData) && Inv(mapData, s) && ValidCommands(mapData, cs) && delta >= 0.0
    ensures var next, enemyId, towerId := Step(laws, mapData, s, cs, delta), (e: Enemy) => e.id, (t: Tower) => t.id;
            && PairsCommon(s.enemies, next.enemies, enemyId, Join(s.enemies, next.enemies, enemyId))
            && PairsCommon(s.towers, next.towers, towerId, Join(s.towers, next.towers, towerId))
  {
    StepKeepsInv(laws, mapData, s, cs, delta);
    var next := Step(laws, mapData, s, cs, delta);
    hide Step;
    EnemiesFollow(s, next);
    TowersFollow(s, next);
    JoinIsCommon(s.enemies, next.enemies, (e: Enemy) => e.id);
    JoinIsCommon(s.towers, next.towers, (t: Tower) => t.id);
  }

  lemma EnemiesFollow(s: State, next: State)
    requires EnemiesInOrder(s.enemies) && EnemiesInOrder(next.enemies) && IdsUsed(s) && IdsCarried(s, next)
    ensures var id := (e: Enemy) => e.id;
            Ascending(s.enemies, id) && Ascending(next.enemies, id) && Follows(s.enemies, next.enemies, id)
  {
    var id := (e: Enemy) => e.id;
    forall j: nat | j < |next.enemies|
      ensures Has(s.enemies, id, next.enemies[j].id)
              || forall i :: 0 <= i < |s.enemies| ==> s.enemies[i].id < next.enemies[j].id
    {
      assert next.enemies[j].id in EnemyIds(next.enemies);
      if next.enemies[j].id in EnemyIds(s.enemies) {
        var i: nat :| i < |s.enemies| && s.enemies[i].id == next.enemies[j].id;
        assert id(s.enemies[i]) == next.enemies[j].id;
      } else {
        forall i: nat | i < |s.enemies| ensures s.enemies[i].id < next.enemies[j].id {
          assert s.enemies[i].id in EnemyIds(s.enemies);
        }
      }
    }
  }

  lemma TowersFollow(s: State, next: State)
    requires TowersInOrder(s.towers) && TowersInOrder(next.towers) && IdsUsed(s) && IdsCarried(s, next)
    ensures var id := (t: Tower) => t.id;
            Ascending(s.towers, id) && Ascending(next.towers, id) && Follows(s.towers, next.towers, id)
  {
    var id := (t: Tower) => t.id;
    forall j: nat | j < |next.towers|
      ensures Has(s.towers, id, next.towers[j].id)
              || forall i :: 0 <= i < |s.towers| ==> s.towers[i].id < next.towers[j].id
    {
      assert next.towers[j].id in TowerIds(next.towers);
      if next.towers[j].id in TowerIds(s.towers) {
        var i: nat :| i < |s.towers| && s.towers[i].id == next.towers[j].id;
        assert id(s.towers[i]) == next.towers[j].id;
      } else {
        forall i: nat | i < |s.towers| ensures s.towers[i].id < next.towers[j].id {
          assert s.towers[i].id in TowerIds(s.towers);
        }
      }
    }
  }

  // ---------- Projectiles ----------

  // The later list is made of entities of the earlier one, in order.
  predicate Picks<T>(prev: seq<T>, next: seq<T>, id: T -> nat)
    decreases |prev|
  {
    next == [] || (prev != [] && if id(prev[0]) == id(next[0]) then Picks(prev[1..], next[1..], id)
                                 else Picks(prev[1..], next, id))
  }

  lemma {:induction false} PicksMore<T>(prev: seq<T>, next: seq<T>, id: T -> nat, a: T)
    requires Picks(prev, next, id)
    ensures Picks(prev + [a], next, id)
    decreases |prev|
  {
    if next != [] {
      assert (prev + [a])[1..] == prev[1..] + [a];
      PicksMore(prev[1..], if id(prev[0]) == id(next[0]) then next[1..] else next, id, a);
    }
  }

  lemma {:induction false} PicksBoth<T>(prev: seq<T>, next: seq<T>, id: T -> nat, a: T, b: T)
    requires Picks(prev, next, id) && id(a) == id(b) && !Has(prev, id, id(b))
    ensures Picks(prev + [a], next + [b], id)
    decreases |prev|
  {
    if prev == [] {
      assert next == [];
      assert (prev + [a])[1..] == [] && (next + [b])[1..] == [];
    } else {
      assert (prev + [a])[1..] == prev[1..] + [a];
      assert id(prev[0]) != id(b);
      assert forall i :: 0 <= i < |prev[1..]| ==> prev[1..][i] == prev[i + 1];
      if next == [] {
        PicksBoth(prev[1..], next, id, a, b);
      } else if id(prev[0]) == id(next[0]) {
        assert (next + [b])[1..] == next[1..] + [b];
        PicksBoth(prev[1..], next[1..], id, a, b);
      } else {
        PicksBoth(prev[1..], next, id, a, b);
      }
    }
  }

  lemma {:induction false} JoinOfPicks<T>(prev: seq<T>, next: seq<T>, id: T -> nat)
    requires Picks(prev, next, id)
    ensures |Join(prev, next, id)| == |next|
    ensures forall m :: 0 <= m < |next| ==> Join(prev, next, id)[m].1 == next[m]
    decreases |prev|
  {
    if prev != [] && next != [] {
      JoinOfPicks(prev[1..], if id(prev[0]) == id(next[0]) then next[1..] else next, id);
    }
  }

  lemma FlightNotYet(ps: seq<Projectile>, n: nat)
    requires 0 < n <= |ps| && ProjectilesDistinct(ps)
    ensures !Has(ps[..n - 1], (p: Projectile) => p.id, ps[n - 1].id)
  {
    assert forall i :: 0 <= i < n - 1 ==> ps[..n - 1][i] == ps[i];
  }

  lemma FlightOrderStep(ps: seq<Projectile>, n: nat, shots: seq<Projectile>, before: seq<Projectile>,
                        after: seq<Projectile>)
    requires 0 < n <= |ps| && ProjectilesDistinct(ps)
    requires |shots| <= |before| && before[..|shots|] == shots
    requires Picks(ps[..n - 1], before[|shots|..], (p: Projectile) => p.id)
    requires after == before
             || (|after| == |before| + 1 && after[..|before|] == before && after[|before|].id == ps[n - 1].id)
    ensures |shots| <= |after| && after[..|shots|] == shots
    ensures Picks(ps[..n], after[|shots|..], (p: Projectile) => p.id)
  {
    var id, k := (p: Projectile) => p.id, |shots|;
    assert ps[..n] == ps[..n - 1] + [ps[n - 1]];
    FlightNotYet(ps, n);
    if after == before {
      PicksMore(ps[..n - 1], before[k..], id, ps[n - 1]);
    } else {
      var b := after[|before|];
      assert after == before + [b];
      assert after[k..] == before[k..] + [b];
      PicksBoth(ps[..n - 1], before[k..], id, ps[n - 1], b);
    }
  }

  // New shots stay in front of the projectiles that fly on, which keep their order.
  lemma {:induction false} FlightOrder(laws: Laws, mapData: MapData, ps: seq<Projectile>, n: nat, im: Impact,
                                       delta: real)
    requires ValidMap(mapData) && ValidEnemies(mapData, im.enemies) && ValidProjectiles(mapData, ps) && n <= |ps|
    requires ProjectilesDistinct(ps)
    ensures var r, k := FlyAll(laws, mapData, ps, n, im, delta).projectiles, |im.projectiles|;
            && k <= |r| && r[..k] == im.projectiles
            && Picks(ps[..n], r[k..], (p: Projectile) => p.id)
  {
    if n > 0 {
      FlightOrder(laws, mapData, ps, n - 1, im, delta);
      var before := FlyAll(laws, mapData, ps, n - 1, im, delta);
      FlyOneKeeps(laws, mapData, ps[n - 1], before, delta);
      var r := FlyOne(laws, mapData, ps[n - 1], before, delta);
      assert FlyAll(laws, mapData, ps, n, im, delta) == r;
      hide FlyOne, FlyAll, Picks;
      FlightOrderStep(ps, n, im.projectiles, before.projectiles, r.projectiles);
    }
  }

  // The shooting loop's guard holds for a tower: an enemy is in range and the interval has passed.
  predicate Shoots(mapData: MapData, tower: Tower, enemies: seq<Enemy>, delta: real)
    requires ValidTower(mapData, tower)
  {
    var kind := mapData.towerTypes[tower.typeIdx];
    && (exists q: nat :: q < |enemies| && InRadius(enemies[q], tower.position, kind.range))
    && tower.timeSinceLastShot + delta > Interval(kind)
  }

  // ... for one of the first n towers,
  predicate AnyOf(mapData: MapData, towers: seq<Tower>, n: nat, enemies: seq<Enemy>, delta: real)
    requires ValidTowers(mapData, towers) && n <= |towers|
  {
    exists i :: 0 <= i < n && Shoots(mapData, towers[i], enemies, delta)
  }

  // ... for any tower, once the enemies have moved.
  predicate AnyShoots(laws: Laws, mapData: MapData, s: State, delta: real)
    requires ValidMap(mapData) && ValidState(mapData, s)
  {
    AnyOf(mapData, s.towers, |s.towers|, MoveAll(laws, mapData, s.enemies, |s.enemies|, delta), delta)
  }

  lemma FireOneShoots(laws: Laws, mapData: MapData, tower: Tower, enemies: seq<Enemy>, fired: Fired, delta: real)
    requires Lawful(laws) && ValidMap(mapData) && ValidTower(mapData, tower)
    ensures var r := FireOne(laws, mapData, tower, enemies, fired, delta);
            r.projectiles != [] <==> fired.projectiles != [] || Shoots(mapData, tower, enemies, delta)
  {
    var range := mapData.towerTypes[tower.typeIdx].range;
    var query := Query(enemies, tower.position, range, |enemies|);
    if query != [] {
      assert query[0] in query;
    }
  }

  lemma {:induction false} AnyOfMore(mapData: MapData, towers: seq<Tower>, n: nat, enemies: seq<Enemy>, delta: real)
    requires ValidTowers(mapData, towers) && 0 < n <= |towers|
    ensures AnyOf(mapData, towers, n, enemies, delta)
       <==> AnyOf(mapData, towers, n - 1, enemies, delta) || Shoots(mapData, towers[n - 1], enemies, delta)
  {
    hide Shoots;
  }

  lemma {:induction false} FireAllShoots(laws: Laws, mapData: MapData, towers: seq<Tower>, n: nat, enemies: seq<Enemy>,
                                         id: nat, delta: real)
    requires Lawful(laws) && ValidMap(mapData) && ValidTowers(mapData, towers) && n <= |towers|
    ensures FireAll(laws, mapData, towers, n, enemies, id, delta).projectiles != []
       <==> AnyOf(mapData, towers, n, enemies, delta)
  {
    hide FireOne, Shoots, Lawful;
    if n > 0 {
      hide AnyOf;
      FireAllShoots(laws, mapData, towers, n - 1, enemies, id, delta);
      FireOneShoots(laws, mapData, towers[n - 1], enemies,
                    FireAll(laws, mapData, towers, n - 1, enemies, id, delta), delta);
      AnyOfMore(mapData, towers, n, enemies, delta);
    }
  }

  // Commands leave projectiles alone.
  lemma {:induction false} CommandsKeepProjectiles(laws: Laws, mapData: MapData, cs: seq<Command>, n: nat, s: State)
    requires ValidMap(mapData) && ValidCommands(mapData, cs) && n <= |cs|
    ensures ExecuteAll(laws, mapData, cs, n, s).projectiles == s.projectiles
  {
    if n > 0 { CommandsKeepProjectiles(laws, mapData, cs, n - 1, s); }
  }

  // What is in flight before the commands: the new shots, then what flies on.
  lemma FlightBeforeCommands(laws: Laws, mapData: MapData, s: State, delta: real)
    returns (shots: seq<Projectile>, flying: seq<Projectile>)
    requires Lawful(laws) && ValidMap(mapData) && Inv(mapData, s) && delta >= 0.0
    ensures BeforeCommands(laws, mapData, s, delta).0.projectiles == shots + flying
    ensures Picks(s.projectiles, flying, (p: Projectile) => p.id)
    ensures shots == AfterTowers(laws, mapData, s, delta).projectiles
  {
    var enemies := MoveAll(laws, mapData, s.enemies, |s.enemies|, delta);
    MovedAreValid(laws, mapData, s.enemies, |s.enemies|, delta);
    var fired := AfterTowers(laws, mapData, s, delta);
    var im := Impact(enemies, fired.projectiles, s.gold, fired.events);
    FlightOrder(laws, mapData, s.projectiles, |s.projectiles|, im, delta);
    var r := FlyAll(laws, mapData, s.projectiles, |s.projectiles|, im, delta).projectiles;
    hide FlyAll, AfterTowers, MoveAll, Picks, ValidTowers;
    assert s.projectiles[..|s.projectiles|] == s.projectiles;
    shots, flying := fired.projectiles, r[|fired.projectiles|..];
  }

  lemma ShotsAfterTowers(laws: Laws, mapData: MapData, s: State, delta: real)
    requires Lawful(laws) && ValidMap(mapData) && Inv(mapData, s) && delta >= 0.0
    ensures var shots := AfterTowers(laws, mapData, s, delta).projectiles;
            && (shots != [] <==> AnyShoots(laws, mapData, s, delta))
            && (shots != [] ==> !Has(s.projectiles, (p: Projectile) => p.id, shots[0].id))
  {
    var enemies := MoveAll(laws, mapData, s.enemies, |s.enemies|, delta);
    FireAllIsGood(laws, mapData, s.towers, |s.towers|, enemies, s.nextObjectId, delta);
    FireAllShoots(laws, mapData, s.towers, |s.towers|, enemies, s.nextObjectId, delta);
    hide FireAll, MoveAll, Shoots, Lawful, ValidMap, ValidTowers, ValidEnemies;
    forall i: nat | i < |s.projectiles|
      ensures s.projectiles[i].id < s.nextObjectId
    {
      assert s.projectiles[i].id in ProjectileIds(s.projectiles);
    }
  }

  // All projectiles that there are after a step are interpolated, unless a tower shoots in the
  // step. Then there are some and none of them is: the new shots are stored first, and the pass
  // never gets beyond them.
  lemma ProjectilesInterpolateIff(laws: Laws, mapData: MapData, s: State, cs: seq<Command>, delta: real)
    requires Lawful(laws) && ValidMap(mapData) && Inv(mapData, s) && ValidCommands(mapData, cs) && delta >= 0.0
    ensures var next := Step(laws, mapData, s, cs, delta).projectiles;
            var pairs := Join(s.projectiles, next, (p: Projectile) => p.id);
            if AnyShoots(laws, mapData, s, delta)
            then next != [] && pairs == []
            else |pairs| == |next| && forall m :: 0 <= m < |pairs| ==> pairs[m].1 == next[m]
  {
    var id := (p: Projectile) => p.id;
    var shots, flying := FlightBeforeCommands(laws, mapData, s, delta);
    ShotsAfterTowers(laws, mapData, s, delta);
    CommandsKeepProjectiles(laws, mapData, cs, |cs|, BeforeCommands(laws, mapData, s, delta).0);
    hide BeforeCommands, AfterTowers, ExecuteAll, AnyShoots, Picks, Join, Inv, Lawful, Has;
    if shots == [] {
      assert shots + flying == flying;
      JoinOfPicks(s.projectiles, flying, id);
    } else {
      JoinStuck(s.projectiles, shots + flying, id);
    }
  }

  // ---------- A projectile that is not interpolated ----------

  // One enemy walking, one tower that is due, and a projectile on its way from `here` to `there`,
  // where an enemy was that has died since.
  function Duel(here: Vec2, there: Vec2): State {
    State([Enemy(1, 0, Vec2(0.0, 0.0), 0.0, Vec2(0.0, 0.0), 5.0, 1, 0.0)],
          [Tower(2, 0, Vec2(0.0, 0.0), 0.0, 1.0)],
          [Projectile(3, 0, here, 0.0, there, 0, 0)],
          0.0, 1, 0, 4)
  }

  function WalkedTo(laws: Laws): Vec2 {
    var start := Vec2(0.0, 0.0);
    laws.Steer(Duel(start, start).enemies, 0, EnemyType(5.0, 1.0, 1.0), start, Vec2(9.0, 0.0), 1.0).position
  }

  // A map where the tower sees as far as the enemy gets and the projectile goes half its way.
  function DuelMap(laws: Laws, here: Vec2, there: Vec2): MapData {
    MapData([Vec2(0.0, 0.0), Vec2(9.0, 0.0)], [9.0, 0.0], [EnemyType(5.0, 1.0, 1.0)],
            [TowerType(1.0, DistanceSqr(WalkedTo(laws), Vec2(0.0, 0.0)) + 1.0, 1.0, 0)],
            [ProjectileType(1.0, laws.Distance(here, there) / 2.0, 0.0)])
  }

  lemma Sees(d: real)
    requires d >= 0.0
    ensures d <= (d + 1.0) * (d + 1.0)
  {
  }

  // Whatever the laws, the projectile is in flight before and after the step, and is left out.
  lemma ProjectileNotInterpolated(laws: Laws, here: Vec2, there: Vec2)
    requires Lawful(laws) && laws.Distance(here, there) > 0.0
    ensures var mapData, s, id := DuelMap(laws, here, there), Duel(here, there), (p: Projectile) => p.id;
            && ValidMap(mapData) && Inv(mapData, s)
            && var next := Step(laws, mapData, s, [], 1.0).projectiles;
            && Has(s.projectiles, id, 3) && Has(next, id, 3) && Join(s.projectiles, next, id) == []
  {
    var mapData, s, id := DuelMap(laws, here, there), Duel(here, there), (p: Projectile) => p.id;
    assert id(s.projectiles[0]) == 3;
    DuelShoots(laws, here, there);
    DuelFlies(laws, here, there);
    ProjectilesInterpolateIff(laws, mapData, s, [], 1.0);
  }

  lemma DuelMoves(laws: Laws, here: Vec2, there: Vec2)
    ensures ValidMap(DuelMap(laws, here, there)) && Inv(DuelMap(laws, here, there), Duel(here, there))
    ensures var moved := MoveAll(laws, DuelMap(laws, here, there), Duel(here, there).enemies, 1, 1.0);
            && |moved| == 1 && moved[0].id == 1
            && moved[0].position == WalkedTo(laws) && moved[0].remainingHealth == 5.0
  {
    var mapData, s := DuelMap(laws, here, there), Duel(here, there);
    assert !IsGone(mapData, s.enemies[0]);
  }

  lemma DuelShoots(laws: Laws, here: Vec2, there: Vec2)
    ensures ValidMap(DuelMap(laws, here, there)) && Inv(DuelMap(laws, here, there), Duel(here, there))
    ensures AnyShoots(laws, DuelMap(laws, here, there), Duel(here, there), 1.0)
  {
    DuelMoves(laws, here, there);
    var mapData, s := DuelMap(laws, here, there), Duel(here, there);
    var moved := MoveAll(laws, mapData, s.enemies, 1, 1.0);
    Sees(DistanceSqr(WalkedTo(laws), Vec2(0.0, 0.0)));
    hide MoveAll, Inv, ValidMap;
    assert InRadius(moved[0], s.towers[0].position, mapData.towerTypes[0].range);
    assert Shoots(mapData, s.towers[0], moved, 1.0);
  }

  lemma DuelFlies(laws: Laws, here: Vec2, there: Vec2)
    requires Lawful(laws) && laws.Distance(here, there) > 0.0
    ensures ValidMap(DuelMap(laws, here, there)) && Inv(DuelMap(laws, here, there), Duel(here, there))
    ensures var next := Step(laws, DuelMap(laws, here, there), Duel(here, there), [], 1.0);
            Has(next.projectiles, (p: Projectile) => p.id, 3)
  {
    DuelMoves(laws, here, there);
    var mapData, s, id := DuelMap(laws, here, there), Duel(here, there), (p: Projectile) => p.id;
    var p := s.projectiles[0];
    var enemies := MoveAll(laws, mapData, s.enemies, 1, 1.0);
    var fired := AfterTowers(laws, mapData, s, 1.0);
    MovedAreValid(laws, mapData, s.enemies, 1, 1.0);
    var im := Impact(enemies, fired.projectiles, s.gold, fired.events);
    hide MoveAll, AfterTowers, Inv, ValidMap, Lawful;
    var r := FlyAll(laws, mapData, s.projectiles, 1, im, 1.0);
    assert FlyAll(laws, mapData, s.projectiles, 0, im, 1.0) == im;
    assert r == FlyOne(laws, mapData, p, im, 1.0);
    assert r.projectiles[|fired.projectiles|].id == 3;
    assert id(r.projectiles[|fired.projectiles|]) == 3;
  }
}
