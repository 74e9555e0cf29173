/**
 * The simulation component (src/Simulation.ts, class SimulationComponent)
 * as a class: the fields the frame loop updates (`isRunning`, `timeStep`,
 * `animationFrameId`, `cars`, `trafficLightAgents`) and the methods that
 * update them.  Each method is proved against a function of
 * SimulationRules on the component's value, World.
 *
 * The canvas, the 2D context, the images, the click handler and all
 * drawing are outside the model; `requestAnimationFrame` is the caller that
 * invokes Update, and its handle is a parameter.
 */
module Simulation {
  import opened Wrappers
  import opened CarAgent
  import opened LightAgent
  import opened SimulationRules

  /** No car object appears twice in a list. */
  predicate Distinct(cs: seq<Car>) {
    forall i, j :: 0 <= i < j < |cs| ==> cs[i] != cs[j]
  }

  /** The values held by a list of car objects, in order. */
  function StatesOf(cs: seq<Car>): (r: seq<CarState>)
    reads cs
    ensures |r| == |cs|
  {
    if cs == [] then [] else [cs[0].State()] + StatesOf(cs[1..])
  }

  lemma {:induction false} StatesOfIndex(cs: seq<Car>, i: nat)
    requires i < |cs|
    ensures StatesOf(cs)[i] == cs[i].State()
  {
    if i > 0 {
      StatesOfIndex(cs[1..], i - 1);
    }
  }

  lemma {:induction false} StatesOfSnoc(cs: seq<Car>, c: Car)
    ensures StatesOf(cs + [c]) == StatesOf(cs) + [c.State()]
  {
    if cs != [] {
      assert (cs + [c])[1..] == cs[1..] + [c];
      StatesOfSnoc(cs[1..], c);
    } else {
      assert cs + [c] == [c];
    }
  }

  /** The values held by a list of light objects, in order. */
  function SnapshotsOf(ls: seq<TrafficLightAgent>): (r: seq<LightState>)
    reads ls
    ensures |r| == |ls|
    ensures forall i :: 0 <= i < |ls| ==> r[i] == ls[i].Snapshot()
  {
    if ls == [] then [] else [ls[0].Snapshot()] + SnapshotsOf(ls[1..])
  }

  lemma StatesOfCons(c: Car, rest: seq<Car>)
    ensures StatesOf([c] + rest) == [c.State()] + StatesOf(rest)
  {
    assert ([c] + rest)[1..] == rest;
  }

  /**
   * The `cars.filter(...)` of `moveCars` on the car objects: the surviving
   * objects are some of the old ones, and their values are exactly the
   * filter applied to the old values.
   */
  function Survivors(cs: seq<Car>, env: Env): (r: seq<Car>)
    reads cs
    ensures StatesOf(r) == KeepOnCanvas(StatesOf(cs), env)
    ensures forall i :: 0 <= i < |r| ==> r[i] in cs
  {
    if cs == [] then []
    else
      var rest := Survivors(cs[1..], env);
      StatesOfCons(cs[0], cs[1..]);
      assert [cs[0]] + cs[1..] == cs;
      KeepOnCanvasCons(cs[0].State(), StatesOf(cs[1..]), env);
      if IsOffCanvas(cs[0].State(), env) then rest
      else
        StatesOfCons(cs[0], rest);
        [cs[0]] + rest
  }

  /** The filter never duplicates a car object. */
  lemma {:induction false} SurvivorsDistinct(cs: seq<Car>, env: Env)
    requires Distinct(cs)
    ensures Distinct(Survivors(cs, env))
  {
    if cs != [] {
      var tail := cs[1..];
      var rest := Survivors(tail, env);
      SurvivorsDistinct(tail, env);
      if !IsOffCanvas(cs[0].State(), env) {
        var r := Survivors(cs, env);
        assert r == [cs[0]] + rest;
        forall i, j | 0 <= i < j < |r| ensures r[i] != r[j] {
          assert r[j] == rest[j - 1];
          if i == 0 {
            var k :| 0 <= k < |tail| && tail[k] == rest[j - 1];
            assert cs[k + 1] == r[j];
          } else {
            assert r[i] == rest[i - 1];
          }
        }
      }
    }
  }

  /** The `forEach(car => car.move(...))` of `moveCars`: move each car of a list once. */
  method MoveEach(cs: seq<Car>)
    requires Distinct(cs)
    modifies set c | c in cs
    ensures StatesOf(cs) == MoveAll(old(StatesOf(cs)))
  {
    ghost var before := StatesOf(cs);
    forall j | 0 <= j < |cs| ensures before[j] == cs[j].State() {
      StatesOfIndex(cs, j);
    }
    for i := 0 to |cs|
      invariant forall j :: 0 <= j < i ==> cs[j].State() == Moved(before[j])
      invariant forall j :: i <= j < |cs| ==> cs[j].State() == before[j]
    {
      assert cs[i] in cs;
      cs[i].Move();
    }
    forall j | 0 <= j < |cs| ensures StatesOf(cs)[j] == MoveAll(before)[j] {
      StatesOfIndex(cs, j);
    }
  }

  class SimulationComponent {
    /** Canvas and car-image sizes, and the speed of spawned cars. */
    const env: Env

    var animationFrameId: Option<int>
    var isRunning: bool
    var timeStep: nat
    var trafficLightAgents: seq<TrafficLightAgent>
    var cars: seq<Car>

    ghost predicate Valid()
      reads this
    {
      Distinct(cars)
    }

    /** The component's value, as the frame loop sees it. */
    function Snapshot(): World
      reads this, cars, trafficLightAgents
    {
      World(isRunning, timeStep, animationFrameId, StatesOf(cars), SnapshotsOf(trafficLightAgents))
    }

    constructor (env: Env)
      ensures Valid() && this.env == env
      ensures Snapshot() == Initial
    {
      this.env := env;
      animationFrameId := None;
      isRunning := false;
      timeStep := 0;
      trafficLightAgents := [];
      cars := [];
    }

    /** `spawnCarRandomly`: append one new car at the chosen spawn point; no clearance check. */
    method SpawnCarRandomly(ch: SpawnChoice)
      requires Valid() && ValidChoice(ch, env)
      modifies this
      ensures Valid()
      ensures |cars| == |old(cars)| + 1 && cars[..|old(cars)|] == old(cars) && fresh(cars[|old(cars)|])
      ensures StatesOf(cars) == old(StatesOf(cars)) + [SpawnedCar(ch, env)]
      ensures isRunning == old(isRunning) && timeStep == old(timeStep)
      ensures animationFrameId == old(animationFrameId) && trafficLightAgents == old(trafficLightAgents)
    {
      var side := SpawnSides[ch.sideIndex];
      var point := SpawnPoints(side, env.canvasWidth, env.canvasHeight).value[ch.pointIndex];
      var car := new Car(point.x, point.y, env.carSpeed, side);
      StatesOfSnoc(cars, car);
      cars := cars + [car];
    }

    /**
     * `drawTrafficLights` without the drawing: replace the light list by
     * eight new lights built from the fixed position and status tables.
     */
    method DrawTrafficLights()
      modifies this
      ensures SnapshotsOf(trafficLightAgents) == LightTable()
      ensures forall i :: 0 <= i < |trafficLightAgents| ==> fresh(trafficLightAgents[i])
      ensures isRunning == old(isRunning) && timeStep == old(timeStep)
      ensures animationFrameId == old(animationFrameId) && cars == old(cars)
    {
      var lights: seq<TrafficLightAgent> := [];
      for i := 0 to |LightPoints|
        invariant |lights| == i
        invariant forall j :: 0 <= j < i ==> fresh(lights[j])
        invariant forall j :: 0 <= j < i ==> lights[j].Snapshot() == LightTable()[j]
        modifies {}
      {
        var light := new TrafficLightAgent(LightPoints[i].0, LightPoints[i].1, LightStatus[i]);
        lights := lights + [light];
      }
      trafficLightAgents := lights;
    }

    /**
     * `moveCars` without the drawing: first drop the cars that are off
     * canvas, then move every remaining car once.
     */
    method MoveCars()
      requires Valid()
      modifies this, set c | c in cars
      ensures Valid()
      ensures StatesOf(cars) == MoveAll(KeepOnCanvas(old(StatesOf(cars)), env))
      ensures isRunning == old(isRunning) && timeStep == old(timeStep)
      ensures animationFrameId == old(animationFrameId) && trafficLightAgents == old(trafficLightAgents)
    {
      var kept := Survivors(cars, env);
      SurvivorsDistinct(cars, env);
      assert forall c :: c in kept ==> c in cars;
      cars := kept;
      MoveEach(kept);
    }

    /** `draw` without the canvas: rebuild the lights, then filter and move the cars. */
    method Draw()
      requires Valid()
      modifies this, set c | c in cars
      ensures Valid()
      ensures StatesOf(cars) == MoveAll(KeepOnCanvas(old(StatesOf(cars)), env))
      ensures SnapshotsOf(trafficLightAgents) == LightTable()
      ensures forall i :: 0 <= i < |trafficLightAgents| ==> fresh(trafficLightAgents[i])
      ensures isRunning == old(isRunning) && timeStep == old(timeStep)
      ensures animationFrameId == old(animationFrameId)
    {
      DrawTrafficLights();
      MoveCars();
    }

    /** The first half of `update`: count the tick, and spawn when the new count is due. */
    method CountTick(ch: SpawnChoice)
      requires Valid() && ValidChoice(ch, env)
      modifies this
      ensures Valid()
      ensures timeStep == old(timeStep) + 1
      ensures StatesOf(cars) == old(StatesOf(cars)) + if timeStep % SpawnInterval == 0 then [SpawnedCar(ch, env)] else []
      ensures forall c :: c in cars ==> c in old(cars) || fresh(c)
      ensures isRunning == old(isRunning) && animationFrameId == old(animationFrameId)
      ensures trafficLightAgents == old(trafficLightAgents)
    {
      timeStep := timeStep + 1;
      if timeStep % SpawnInterval == 0 {
        SpawnCarRandomly(ch);
      }
    }

    /**
     * The `update` callback: when running, count the tick, spawn on every
     * SpawnInterval-th tick, draw, and store the handle of the next frame.
     */
    method Update(ch: SpawnChoice, frameId: int)
      requires Valid() && ValidChoice(ch, env)
      modifies this, set c | c in cars
      ensures Valid()
      ensures Snapshot() == Tick(old(Snapshot()), env, ch, frameId)
    {
      ghost var before := Snapshot();
      if isRunning {
        CountTick(ch);
        Draw();
        animationFrameId := Some(frameId);
        assert Snapshot() == Tick(before, env, ch, frameId);
      }
    }

    /** `startGameLoop`: a no-op when running; otherwise set the flag and run the first update. */
    method StartGameLoop(ch: SpawnChoice, frameId: int)
      requires Valid() && ValidChoice(ch, env)
      modifies this, set c | c in cars
      ensures Valid()
      ensures Snapshot() == Start(old(Snapshot()), env, ch, frameId)
    {
      if isRunning {
        return;
      }
      isRunning := true;
      Update(ch, frameId);
    }

    /**
     * `stopGameLoop`: clear the flag and, when a frame is pending, return
     * its handle (the argument of `cancelAnimationFrame`) and forget it.
     */
    method StopGameLoop() returns (cancelled: Option<int>)
      modifies this
      ensures Snapshot() == Stop(old(Snapshot()))
      ensures cancelled == CancelledFrame(old(Snapshot()))
      ensures cars == old(cars)
    {
      isRunning := false;
      cancelled := None;
      if animationFrameId.Some? && animationFrameId.value != 0 {
        cancelled := animationFrameId;
        animationFrameId := None;
      }
    }
  }
}
