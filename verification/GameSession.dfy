/**
 A game session: two state buffers that take turns, and the loop that runs the simulation
 in fixed steps of time.
 */
module GameSessions {
  import opened TowerRules
  import opened TowerProperties
  import opened GameStates

  // One command queue for every step.
  type Batches = seq<seq<Command>>

  predicate ValidBatches(mapData: MapData, batches: Batches) {
    forall i :: 0 <= i < |batches| ==> ValidCommands(mapData, batches[i])
  }

  // The state that steps with those commands lead to.
  ghost function Fold(laws: Laws, mapData: MapData, s: State, batches: Batches, delta: real): (r: State)
    requires Lawful(laws) && ValidMap(mapData) && Inv(mapData, s) && ValidBatches(mapData, batches) && delta >= 0.0
    ensures Inv(mapData, r)
  {
    if batches == [] then s
    else
      var last := |batches| - 1;
      var before := Fold(laws, mapData, s, batches[..last], delta);
      StepKeepsInv(laws, mapData, before, batches[last], delta);
      Step(laws, mapData, before, batches[last], delta)
  }

  class GameSession {
    const laws: Laws
    const mapData: MapData
    const fixedDelta: real
    const state0: GameState
    const state1: GameState
    var prevState: GameState
    var nextState: GameState
    // The state that the session was created with, and the commands of every step since.
    ghost const start: State
    ghost var batches: Batches

    ghost predicate Valid()
      reads this, state0, state1
    {
      && Lawful(laws) && ValidMap(mapData) && fixedDelta >= 0.0
      && state0 != state1
      && ((prevState == state0 && nextState == state1) || (prevState == state1 && nextState == state0))
      && Inv(mapData, start) && ValidBatches(mapData, batches) && batches != []
      // The next buffer is the whole history, the previous one is the history but for the last step.
      && nextState.Value() == Fold(laws, mapData, start, batches, fixedDelta)
      && prevState.Value() == Fold(laws, mapData, start, batches[..|batches| - 1], fixedDelta)
    }

    // The session starts with one step already taken.
    constructor FromMap(laws: Laws, mapData: MapData, fixedDelta: real, gold: real, lives: nat, engine: Engine)
      requires Lawful(laws) && ValidMap(mapData) && fixedDelta >= 0.0 && gold >= 0.0
      ensures Valid() && fresh(state0) && fresh(state1)
      ensures this.laws == laws && this.mapData == mapData && this.fixedDelta == fixedDelta
      ensures start == State([], [], [], gold, lives, engine, 0) && batches == [[]]
    {
      this.laws, this.mapData, this.fixedDelta := laws, mapData, fixedDelta;
      var first := new GameState(0.0, 0, 0);
      var second := new GameState(gold, lives, engine);
      state0, state1 := first, second;
      prevState, nextState := first, second;
      start := State([], [], [], gold, lives, engine, 0);
      batches := [];
      new;
      prevState, nextState := nextState, prevState;
      var events := GameStates.TimeStep(laws, mapData, prevState, nextState, [], fixedDelta);
      batches := [[]];
      assert batches[..0] == [];
    }

    method TimeStep(commands: seq<Command>) returns (events: seq<Event>)
      requires Valid() && ValidCommands(mapData, commands)
      modifies this, state0, state1
      ensures Valid() && batches == old(batches) + [commands]
      ensures nextState == old(prevState) && prevState == old(nextState)
    {
      prevState, nextState := nextState, prevState;
      events := GameStates.TimeStep(laws, mapData, prevState, nextState, commands, fixedDelta);
      batches := batches + [commands];
      assert batches[..|batches| - 1] == old(batches);
    }
  }

  // ---------- The loop ----------

  // However long a stretch of time is cut in two, the same steps are due.
  lemma {:induction false} DueInParts(t: real, more: real, interval: real)
    requires interval > 0.0 && t >= 0.0 && more >= 0.0
    ensures Due(t + more, interval) == Due(t, interval) + Due(TimeLeft(t, interval) + more, interval)
    ensures TimeLeft(t + more, interval) == TimeLeft(TimeLeft(t, interval) + more, interval)
    decreases Due(t, interval)
  {
    if t > interval {
      DueInParts(t - interval, more, interval);
      assert t + more - interval == t - interval + more;
    }
  }

  // The k batches of one frame: the commands go to the first step.
  function FrameBatches(commands: seq<Command>, k: nat): (r: Batches)
    ensures |r| == k
  {
    if k == 0 then [] else if k == 1 then [commands] else FrameBatches(commands, k - 1) + [[]]
  }

  lemma NextBatch(done: Batches, commands: seq<Command>, k: nat)
    ensures done + FrameBatches(commands, 0) == done
    ensures done + FrameBatches(commands, k + 1) == done + FrameBatches(commands, k) + [if k == 0 then commands else []]
  {
  }

  lemma DueOnce(time: real, interval: real)
    requires interval > 0.0 && time > interval
    ensures Due(time, interval) == 1 + Due(time - interval, interval)
    ensures TimeLeft(time, interval) == TimeLeft(time - interval, interval)
  {
  }

  lemma DueNone(time: real, interval: real)
    requires interval > 0.0 && time <= interval
    ensures Due(time, interval) == 0 && TimeLeft(time, interval) == time
  {
  }

  function Flat(batches: Batches): seq<Command> {
    if batches == [] then [] else Flat(batches[..|batches| - 1]) + batches[|batches| - 1]
  }

  lemma {:induction false} FlatAdd(a: Batches, b: Batches)
    ensures Flat(a + b) == Flat(a) + Flat(b)
  {
    if b == [] {
      assert a + b == a;
    } else {
      var last := |b| - 1;
      FlatAdd(a, b[..last]);
      assert (a + b)[..|a + b| - 1] == a + b[..last];
    }
  }

  lemma {:induction false} FlatFrame(commands: seq<Command>, k: nat)
    ensures Flat(FrameBatches(commands, k)) == if k == 0 then [] else commands
  {
    if k > 1 {
      FlatFrame(commands, k - 1);
      assert FrameBatches(commands, k)[..k - 1] == FrameBatches(commands, k - 1);
    }
  }

  // Only the total time decides how many steps were taken and what is left over.
  predicate OnTime(steps: Batches, time: real, accumulatedDelta: real, interval: real) {
    && time >= 0.0 && interval > 0.0
    && |steps| == Due(time, interval)
    && accumulatedDelta == TimeLeft(time, interval)
  }

  // Every queued command has been executed once, in order, or is still waiting.
  predicate NoneLost(steps: Batches, commands: seq<Command>, queued: seq<Command>) {
    Flat(steps) + commands == queued
  }

  lemma FrameLosesNone(done: Batches, queue: seq<Command>, k: nat, rest: seq<Command>, queued: seq<Command>)
    requires NoneLost(done, queue, queued) && rest == if k == 0 then queue else []
    ensures NoneLost(done + FrameBatches(queue, k), rest, queued)
  {
    FlatAdd(done, FrameBatches(queue, k));
    FlatFrame(queue, k);
    hide Flat, FrameBatches;
    assert Flat(done) + [] + queue == Flat(done) + queue == Flat(done) + queue + [];
  }

  lemma FrameIsOnTime(done: Batches, time: real, accumulatedDelta: real, interval: real, more: real,
                      queue: seq<Command>)
    requires OnTime(done, time, accumulatedDelta, interval) && more >= 0.0
    ensures var start := accumulatedDelta + more;
            OnTime(done + FrameBatches(queue, Due(start, interval)), time + more, TimeLeft(start, interval), interval)
  {
    DueInParts(time, more, interval);
  }

  lemma Tail<T>(a: seq<T>, b: seq<T>)
    requires a != []
    ensures (a + b)[1..] == a[1..] + b
  {
  }

  // Steps the session until no step is due. The commands go to the first step, if there is one.
  method RunDue(session: GameSession, queue: seq<Command>, accumulated: real)
    returns (accumulatedDelta: real, commands: seq<Command>, ghost k: nat)
    requires session.Valid() && session.fixedDelta > 0.0 && ValidCommands(session.mapData, queue)
    modifies session, session.state0, session.state1
    ensures session.Valid() && ValidCommands(session.mapData, commands)
    ensures k == Due(accumulated, session.fixedDelta) && accumulatedDelta == TimeLeft(accumulated, session.fixedDelta)
    ensures session.batches == old(session.batches) + FrameBatches(queue, k)
    ensures commands == if k == 0 then queue else []
  {
    hide GameSession.Valid, FrameBatches, Due, TimeLeft;
    accumulatedDelta, commands, k := accumulated, queue, 0;
    ghost var done, interval := session.batches, session.fixedDelta;
    NextBatch(done, queue, 0);
    while accumulatedDelta > session.fixedDelta
      invariant session.Valid() && ValidCommands(session.mapData, commands)
      invariant k + Due(accumulatedDelta, interval) == Due(accumulated, interval)
      invariant TimeLeft(accumulatedDelta, interval) == TimeLeft(accumulated, interval)
      invariant session.batches == done + FrameBatches(queue, k)
      invariant commands == if k == 0 then queue else []
      decreases Due(accumulatedDelta, interval)
    {
      DueOnce(accumulatedDelta, interval);
      NextBatch(done, queue, k);
      accumulatedDelta := accumulatedDelta - session.fixedDelta;
      var events := session.TimeStep(commands);
      commands := [];
      k := k + 1;
    }
    DueNone(accumulatedDelta, interval);
  }

  class Game {
    const session: GameSession
    var accumulatedDelta: real
    var commands: seq<Command>
    // All the scaled time that has passed, and all the commands that were ever queued.
    ghost var time: real
    ghost var queued: seq<Command>

    // Steps taken by the loop; the first batch of the session is its own warm-up step.
    ghost function Steps(): Batches
      reads this, session
    {
      if session.batches == [] then [] else session.batches[1..]
    }

    ghost predicate Valid()
      reads this, session, session.state0, session.state1
    {
      && session.Valid() && session.fixedDelta > 0.0 && session.batches != []
      && ValidCommands(session.mapData, commands)
      && OnTime(Steps(), time, accumulatedDelta, session.fixedDelta)
      && NoneLost(Steps(), commands, queued)
    }

    constructor (session: GameSession)
      requires session.Valid() && session.fixedDelta > 0.0 && session.batches == [[]]
      ensures Valid() && this.session == session && time == 0.0 && queued == []
    {
      this.session := session;
      accumulatedDelta, commands := 0.0, [];
      time, queued := 0.0, [];
    }

    // The simulation part of one frame.
    method RunSteps(scaledDt: real) returns (ghost k: nat)
      requires Valid() && scaledDt >= 0.0
      modifies this, session, session.state0, session.state1
      ensures Valid() && time == old(time) + scaledDt && queued == old(queued)
      ensures Steps() == old(Steps()) + FrameBatches(old(commands), k)
      ensures commands == if k == 0 then old(commands) else []
    {
      hide GameSession.Valid, ValidCommands, FrameBatches, Due, TimeLeft, OnTime, NoneLost;
      ghost var done, queue := Steps(), commands;
      assert done == session.batches[1..];
      FrameIsOnTime(done, time, accumulatedDelta, session.fixedDelta, scaledDt, queue);
      var left, rest;
      left, rest, k := RunDue(session, commands, accumulatedDelta + scaledDt);
      Tail(old(session.batches), FrameBatches(queue, k));
      FrameLosesNone(done, queue, k, rest, queued);
      accumulatedDelta, commands := left, rest;
      time := time + scaledDt;
    }

    // One frame: time passes, steps are taken, and then the player queues commands.
    method Update(scaledDt: real, input: seq<Command>)
      requires Valid() && scaledDt >= 0.0 && ValidCommands(session.mapData, input)
      modifies this, session, session.state0, session.state1
      ensures Valid() && time == old(time) + scaledDt && queued == old(queued) + input
      ensures old(Steps()) <= Steps()
      ensures 0.0 <= accumulatedDelta <= session.fixedDelta
    {
      hide GameSession.Valid, NoneLost, OnTime, ValidCommands;
      ghost var k := RunSteps(scaledDt);
      QueueMore(session.mapData, Steps(), commands, queued, input);
      LeftIsShort(Steps(), time, accumulatedDelta, session.fixedDelta);
      commands := commands + input;
      queued := queued + input;
    }
  }

  lemma QueueMore(mapData: MapData, steps: Batches, commands: seq<Command>, queued: seq<Command>, input: seq<Command>)
    requires NoneLost(steps, commands, queued) && ValidCommands(mapData, commands) && ValidCommands(mapData, input)
    ensures NoneLost(steps, commands + input, queued + input) && ValidCommands(mapData, commands + input)
  {
    assert Flat(steps) + commands + input == Flat(steps) + (commands + input);
  }

  lemma LeftIsShort(steps: Batches, time: real, accumulatedDelta: real, interval: real)
    requires OnTime(steps, time, accumulatedDelta, interval)
    ensures 0.0 <= accumulatedDelta <= interval
  {
    DueLeaves(time, interval);
  }

  // The steps taken and the time left over after frames of the given lengths.
  function Frames(dts: seq<real>, interval: real): (nat, real)
    requires interval > 0.0
  {
    if dts == [] then (0, 0.0)
    else
      var (n, left) := Frames(dts[..|dts| - 1], interval);
      var time := left + dts[|dts| - 1];
      (n + Due(time, interval), TimeLeft(time, interval))
  }

  function Total(dts: seq<real>): real {
    if dts == [] then 0.0 else Total(dts[..|dts| - 1]) + dts[|dts| - 1]
  }

  // Only the total time matters, not how the frames divide it.
  lemma {:induction false} FramesDoNotMatter(dts: seq<real>, interval: real)
    requires interval > 0.0 && forall i :: 0 <= i < |dts| ==> dts[i] >= 0.0
    ensures Total(dts) >= 0.0
    ensures Frames(dts, interval) == (Due(Total(dts), interval), TimeLeft(Total(dts), interval))
  {
    if dts != [] {
      var last := |dts| - 1;
      FramesDoNotMatter(dts[..last], interval);
      DueInParts(Total(dts[..last]), dts[last], interval);
    }
  }
}
