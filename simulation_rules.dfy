/**
 * The per-frame rules of the simulation component (src/Simulation.ts) on
 * values: the despawn test and filter of `moveCars`, the spawn tables of
 * `spawnCarRandomly`, the light table of `drawTrafficLights`, and the
 * `startGameLoop` / `update` / `stopGameLoop` state machine with its tick
 * counter.  The class in module Simulation is proved against these functions.
 *
 * What the browser supplies is a parameter here: the canvas and car-image
 * sizes (Env), the two `Math.random` draws (SpawnChoice), and the handle
 * `requestAnimationFrame` returns (frameId).
 */
module SimulationRules {
  import opened Wrappers
  import opened CarAgent
  import opened LightAgent

  /** `update` spawns a car on every tick whose new counter is a multiple of this. */
  const SpawnInterval: nat := 80

  /**
   * Sizes read from the DOM: the canvas, and the car image used by the
   * despawn test.  `carSpeed` is the speed given to spawned cars: the spawn
   * call at src/Simulation.ts:276-282 passes (x, y, direction, road, img) to
   * a constructor declared as (x, y, speed, direction, img), so the source
   * supplies no speed the model could take.
   */
  datatype Env = Env(canvasWidth: int, canvasHeight: int, carWidth: int, carHeight: int, carSpeed: int)

  // ---------------------------------------------------------------------
  // Despawn
  // ---------------------------------------------------------------------

  /**
   * The test of the filter in `moveCars`: a car goes once it is more than
   * an image size beyond an edge.  The lower edge is compared against the
   * image WIDTH, as the source writes it.  With image sizes that are not
   * negative, a car whose position lies on the canvas is never removed.
   */
  predicate IsOffCanvas(c: CarState, env: Env)
    ensures env.carWidth >= 0 && env.carHeight >= 0
            && 0 <= c.x <= env.canvasWidth && 0 <= c.y <= env.canvasHeight
            ==> !IsOffCanvas(c, env)
  {
    || c.x + env.carWidth < 0
    || c.x - env.carWidth > env.canvasWidth
    || c.y + env.carHeight < 0
    || c.y - env.carWidth > env.canvasHeight
  }

  /** The `cars.filter(...)` of `moveCars`: the cars that are not off canvas, in order. */
  function KeepOnCanvas(cs: seq<CarState>, env: Env): (r: seq<CarState>)
    ensures |r| <= |cs|
  {
    if cs == [] then []
    else (if IsOffCanvas(cs[0], env) then [] else [cs[0]]) + KeepOnCanvas(cs[1..], env)
  }

  lemma KeepOnCanvasCons(c: CarState, cs: seq<CarState>, env: Env)
    ensures KeepOnCanvas([c] + cs, env) == (if IsOffCanvas(c, env) then [] else [c]) + KeepOnCanvas(cs, env)
  {
    assert ([c] + cs)[1..] == cs;
  }

  /** A car survives the filter iff it was present and is not off canvas. */
  lemma {:induction false} KeepOnCanvasMembership(cs: seq<CarState>, env: Env, c: CarState)
    ensures c in KeepOnCanvas(cs, env) <==> c in cs && !IsOffCanvas(c, env)
  {
    if cs != [] {
      KeepOnCanvasMembership(cs[1..], env, c);
      assert cs == [cs[0]] + cs[1..];
    }
  }

  /** The filter works car by car, so it keeps the relative order of the survivors. */
  lemma {:induction false} KeepOnCanvasAppend(a: seq<CarState>, b: seq<CarState>, env: Env)
    ensures KeepOnCanvas(a + b, env) == KeepOnCanvas(a, env) + KeepOnCanvas(b, env)
  {
    if a == [] {
      assert a + b == b;
    } else {
      var head := if IsOffCanvas(a[0], env) then [] else [a[0]];
      assert a == [a[0]] + a[1..];
      assert a + b == [a[0]] + (a[1..] + b);
      KeepOnCanvasCons(a[0], a[1..] + b, env);
      KeepOnCanvasCons(a[0], a[1..], env);
      KeepOnCanvasAppend(a[1..], b, env);
      assert head + (KeepOnCanvas(a[1..], env) + KeepOnCanvas(b, env))
          == (head + KeepOnCanvas(a[1..], env)) + KeepOnCanvas(b, env);
    }
  }

  /** When no car is off canvas the filter removes nothing. */
  lemma {:induction false} KeepOnCanvasAllInBounds(cs: seq<CarState>, env: Env)
    requires forall i :: 0 <= i < |cs| ==> !IsOffCanvas(cs[i], env)
    ensures KeepOnCanvas(cs, env) == cs
  {
    if cs != [] {
      KeepOnCanvasAllInBounds(cs[1..], env);
      assert cs == [cs[0]] + cs[1..];
    }
  }

  /** Filtering twice is filtering once. */
  lemma KeepOnCanvasIdempotent(cs: seq<CarState>, env: Env)
    ensures KeepOnCanvas(KeepOnCanvas(cs, env), env) == KeepOnCanvas(cs, env)
  {
    var r := KeepOnCanvas(cs, env);
    forall i | 0 <= i < |r| ensures !IsOffCanvas(r[i], env) {
      KeepOnCanvasMembership(cs, env, r[i]);
    }
    KeepOnCanvasAllInBounds(r, env);
  }

  /** The `forEach(car => car.move(...))` of `moveCars`, applied to values. */
  function MoveAll(cs: seq<CarState>): (r: seq<CarState>)
    ensures |r| == |cs|
    ensures forall i :: 0 <= i < |cs| ==> r[i] == Moved(cs[i])
  {
    seq(|cs|, i requires 0 <= i < |cs| => Moved(cs[i]))
  }

  lemma MoveAllMembership(cs: seq<CarState>, c: CarState)
    requires c in cs
    ensures Moved(c) in MoveAll(cs)
  {
    var i :| 0 <= i < |cs| && cs[i] == c;
    assert MoveAll(cs)[i] == Moved(c);
  }

  // ---------------------------------------------------------------------
  // Spawn
  // ---------------------------------------------------------------------

  /**
   * One entry of a spawn table.  `road` is the lane label; the spawn call
   * as written passes it where Car expects the direction (see
   * SpawnedCarAsWritten).
   */
  datatype SpawnPoint = SpawnPoint(x: int, y: int, road: string)

  /** `spawnSides`, in the order the random index picks from. */
  const SpawnSides: seq<string> := [Right, Left, Up, Down]

  /**
   * The table for a side.  Cars heading right enter at the left edge,
   * cars heading left at the right edge, cars heading up at the bottom and
   * cars heading down at the top.  None is the `throw` for an unknown side.
   */
  function SpawnPoints(side: string, canvasWidth: int, canvasHeight: int): (r: Option<seq<SpawnPoint>>)
    ensures r.Some? <==> IsDirection(side)
    ensures r.Some? ==> |r.value| == if IsHorizontal(side) then 2 else 4
    ensures side == Right ==> forall p :: p in r.value ==> p.x == 0
    ensures side == Left ==> forall p :: p in r.value ==> p.x == canvasWidth
    ensures side == Up ==> forall p :: p in r.value ==> p.y == canvasHeight
    ensures side == Down ==> forall p :: p in r.value ==> p.y == 0
  {
    match side
    case "right" => Some([SpawnPoint(0, 153, "1"), SpawnPoint(0, 493, "2")])
    case "left" => Some([SpawnPoint(canvasWidth, 188, "1"), SpawnPoint(canvasWidth, 527, "2")])
    case "up" => Some([SpawnPoint(153, canvasHeight, "1"), SpawnPoint(493, canvasHeight, "2"),
                       SpawnPoint(835, canvasHeight, "3"), SpawnPoint(1177, canvasHeight, "4")])
    case "down" => Some([SpawnPoint(190, 0, "1"), SpawnPoint(530, 0, "2"),
                         SpawnPoint(872, 0, "3"), SpawnPoint(1212, 0, "4")])
    case _ => None
  }

  /** Every side `spawnSides` offers has a table, so the `throw` is never reached. */
  lemma EverySideHasPoints(i: nat, canvasWidth: int, canvasHeight: int)
    requires i < |SpawnSides|
    ensures SpawnPoints(SpawnSides[i], canvasWidth, canvasHeight).Some?
    ensures |SpawnPoints(SpawnSides[i], canvasWidth, canvasHeight).value| == if i < 2 then 2 else 4
  {
  }

  /** The two `Math.floor(Math.random() * n)` draws: a side, then a point of that side. */
  datatype SpawnChoice = SpawnChoice(sideIndex: nat, pointIndex: nat)

  predicate ValidChoice(ch: SpawnChoice, env: Env) {
    && ch.sideIndex < |SpawnSides|
    && SpawnPoints(SpawnSides[ch.sideIndex], env.canvasWidth, env.canvasHeight).Some?
    && ch.pointIndex < |SpawnPoints(SpawnSides[ch.sideIndex], env.canvasWidth, env.canvasHeight).value|
  }

  /**
   * The car `spawnCarRandomly` adds: at the chosen table point, heading the
   * way the side names.
   */
  function SpawnedCar(ch: SpawnChoice, env: Env): (c: CarState)
    requires ValidChoice(ch, env)
    ensures c.direction == SpawnSides[ch.sideIndex] && c.speed == env.carSpeed
    ensures c.direction == Right ==> c.x == 0 && (c.y == 153 || c.y == 493)
    ensures c.direction == Left ==> c.x == env.canvasWidth && (c.y == 188 || c.y == 527)
    ensures c.direction == Up ==> c.y == env.canvasHeight && (c.x == 153 || c.x == 493 || c.x == 835 || c.x == 1177)
    ensures c.direction == Down ==> c.y == 0 && (c.x == 190 || c.x == 530 || c.x == 872 || c.x == 1212)
  {
    var side := SpawnSides[ch.sideIndex];
    var p := SpawnPoints(side, env.canvasWidth, env.canvasHeight).value[ch.pointIndex];
    CarState(p.x, p.y, env.carSpeed, side)
  }

  /**
   * Sizes for which every spawn point lies inside the despawn bounds: image
   * sizes that are not negative and a canvas that reaches the furthest
   * fixed spawn coordinates (x = 1212, y = 527).
   */
  predicate LayoutFits(env: Env) {
    && env.carWidth >= 0 && env.carHeight >= 0
    && env.canvasWidth >= 1212 && env.canvasHeight >= 527
  }

  /** On such a layout a freshly spawned car is never removed by the filter that follows. */
  lemma SpawnedCarOnCanvas(ch: SpawnChoice, env: Env)
    requires ValidChoice(ch, env) && LayoutFits(env)
    ensures !IsOffCanvas(SpawnedCar(ch, env), env)
  {
  }

  /** A car spawned with a nonzero speed leaves its spawn point on its first move. */
  lemma SpawnedCarAdvances(ch: SpawnChoice, env: Env)
    requires ValidChoice(ch, env) && env.carSpeed != 0
    ensures Moved(SpawnedCar(ch, env)) != SpawnedCar(ch, env)
  {
  }

  /**
   * The car the spawn call builds as written: `new Car(x, y, direction,
   * road, img)` against the declared `(x, y, speed, direction, img)` puts
   * the side string into `speed` and the road label into `direction`.  The
   * speed a JavaScript string would hold has no integer value; `junk`
   * stands for it, and no step below depends on it.
   */
  function SpawnedCarAsWritten(ch: SpawnChoice, env: Env, junk: int): (c: CarState)
    requires ValidChoice(ch, env)
    ensures c.x == SpawnedCar(ch, env).x && c.y == SpawnedCar(ch, env).y
    ensures c.direction in {"1", "2", "3", "4"} && !IsDirection(c.direction)
  {
    var side := SpawnSides[ch.sideIndex];
    var p := SpawnPoints(side, env.canvasWidth, env.canvasHeight).value[ch.pointIndex];
    CarState(p.x, p.y, junk, p.road)
  }

  /**
   * As written, a spawned car never moves: its direction is a road label
   * the switch in `move` does not recognise.  On a layout that holds the
   * spawn points it is therefore never removed either.
   */
  lemma {:induction false} AsWrittenSpawnStaysPut(ch: SpawnChoice, env: Env, junk: int, n: nat)
    requires ValidChoice(ch, env)
    ensures MovedTimes(SpawnedCarAsWritten(ch, env, junk), n) == SpawnedCarAsWritten(ch, env, junk)
    ensures LayoutFits(env) ==> !IsOffCanvas(MovedTimes(SpawnedCarAsWritten(ch, env, junk), n), env)
  {
    if n > 0 {
      AsWrittenSpawnStaysPut(ch, env, junk, n - 1);
    }
    if LayoutFits(env) {
      SpawnedCarOnCanvas(ch, env);
    }
  }

  // ---------------------------------------------------------------------
  // Lights
  // ---------------------------------------------------------------------

  /** The `points` and `lightStatus` tables of `drawTrafficLights`. */
  const LightPoints: seq<(int, int)> :=
    [(70, 20), (410, 20), (750, 20), (1090, 20), (70, 360), (410, 360), (750, 360), (1090, 360)]
  const LightStatus: seq<string> := [Green, Red, Yellow, Green, Red, Yellow, Green, Red]

  /**
   * The lights built on every frame, in table order; the light at index i
   * is the one the source numbers i + 1.  The source passes that number as
   * a third constructor argument (src/Simulation.ts:204-212), but
   * TrafficLightAgent's constructor has no id parameter, so the model builds
   * each light from its position and status as the constructor declares.
   */
  function LightTable(): (r: seq<LightState>)
    ensures |r| == |LightPoints| == 8
    ensures forall i :: 0 <= i < |r| ==> r[i] == LightState(LightPoints[i].0, LightPoints[i].1, LightStatus[i])
  {
    seq(8, i requires 0 <= i < 8 => LightState(LightPoints[i].0, LightPoints[i].1, LightStatus[i]))
  }

  /**
   * Every status in the table is a recognised state, and no two lights share
   * a position.  As written the source stores the number i + 1 as the state
   * instead (src/Simulation.ts:204-212), so there every light is reported
   * invalid; this lemma is about the intended table.
   */
  lemma LightTableWellFormed()
    ensures forall i :: 0 <= i < |LightTable()| ==> SelectImage(LightTable()[i].state).Some?
    ensures forall i, j :: 0 <= i < j < |LightTable()| ==>
      (LightTable()[i].x, LightTable()[i].y) != (LightTable()[j].x, LightTable()[j].y)
  {
  }

  // ---------------------------------------------------------------------
  // The frame loop
  // ---------------------------------------------------------------------

  /** The state of the component that the frame loop changes. */
  datatype World = World(
    isRunning: bool,
    timeStep: nat,
    animationFrameId: Option<int>,
    cars: seq<CarState>,
    lights: seq<LightState>)

  /** The field initialisers of the component. */
  const Initial: World := World(false, 0, None, [], [])

  /**
   * One `update` callback: when running, advance the counter, spawn on
   * every SpawnInterval-th tick, rebuild the lights, filter the cars (the
   * new one included) and then move the survivors, and store the next
   * frame handle.  When not running it does nothing.
   */
  function Tick(w: World, env: Env, ch: SpawnChoice, frameId: int): (r: World)
    requires ValidChoice(ch, env)
    ensures r.isRunning == w.isRunning
    ensures !w.isRunning ==> r == w
    ensures w.isRunning ==> |r.cars| <= |w.cars| + if r.timeStep % SpawnInterval == 0 then 1 else 0
  {
    if !w.isRunning then w
    else
      var t := w.timeStep + 1;
      var pending := w.cars + if t % SpawnInterval == 0 then [SpawnedCar(ch, env)] else [];
      World(true, t, Some(frameId), MoveAll(KeepOnCanvas(pending, env)), LightTable())
  }

  /** `startGameLoop`: nothing when already running, otherwise set running and run one `update`. */
  function Start(w: World, env: Env, ch: SpawnChoice, frameId: int): (r: World)
    requires ValidChoice(ch, env)
    ensures r.isRunning
    ensures w.isRunning ==> r == w
  {
    if w.isRunning then w else Tick(w.(isRunning := true), env, ch, frameId)
  }

  /** `if (this.animationFrameId)`: null and the number 0 are both falsy. */
  predicate IsPendingFrame(f: Option<int>) {
    f.Some? && f.value != 0
  }

  /** The handle `stopGameLoop` passes to `cancelAnimationFrame`, if any. */
  function CancelledFrame(w: World): (r: Option<int>)
    ensures r.Some? <==> IsPendingFrame(w.animationFrameId)
    ensures r.Some? ==> r == w.animationFrameId
  {
    if IsPendingFrame(w.animationFrameId) then w.animationFrameId else None
  }

  /** `stopGameLoop`: clear the running flag and forget a pending frame handle. */
  function Stop(w: World): (r: World)
    ensures !r.isRunning && !IsPendingFrame(r.animationFrameId)
    ensures r.timeStep == w.timeStep && r.cars == w.cars && r.lights == w.lights
  {
    w.(isRunning := false, animationFrameId := if IsPendingFrame(w.animationFrameId) then None else w.animationFrameId)
  }

  /** Each update while running advances the counter by one and stores the new handle; otherwise nothing changes. */
  lemma TickAdvancesClock(w: World, env: Env, ch: SpawnChoice, frameId: int)
    requires ValidChoice(ch, env)
    ensures w.isRunning ==>
              && Tick(w, env, ch, frameId).isRunning
              && Tick(w, env, ch, frameId).timeStep == w.timeStep + 1
              && Tick(w, env, ch, frameId).animationFrameId == Some(frameId)
    ensures !w.isRunning ==> Tick(w, env, ch, frameId) == w
  {
  }

  /**
   * A spawn is attempted iff the new counter is a multiple of
   * SpawnInterval.  The new car goes through the same filter as the old
   * ones in the same update, so the cars after the tick are the moved
   * survivors of the old cars followed by the moved spawned car if it is
   * due and not already off canvas.  Nothing checks for room at the spawn
   * point.
   */
  lemma {:induction false} TickSpawnsIffMultiple(w: World, env: Env, ch: SpawnChoice, frameId: int)
    requires ValidChoice(ch, env) && w.isRunning
    ensures var w' := Tick(w, env, ch, frameId);
      w'.cars == MoveAll(KeepOnCanvas(w.cars, env))
        + if w'.timeStep % SpawnInterval == 0 && !IsOffCanvas(SpawnedCar(ch, env), env)
          then [Moved(SpawnedCar(ch, env))] else []
  {
    var t := w.timeStep + 1;
    var s := SpawnedCar(ch, env);
    var kept := KeepOnCanvas(w.cars, env);
    if t % SpawnInterval == 0 {
      KeepOnCanvasAppend(w.cars, [s], env);
      assert [s][1..] == [];
      if IsOffCanvas(s, env) {
        assert KeepOnCanvas([s], env) == [];
        assert kept + [] == kept;
      } else {
        assert KeepOnCanvas([s], env) == [s];
        assert MoveAll(kept + [s]) == MoveAll(kept) + [Moved(s)];
      }
    } else {
      assert w.cars + [] == w.cars;
    }
  }

  /**
   * On a canvas narrower than the furthest spawn point, a car due at the
   * 80th update can leave in that same update: spawned at x = 1212 heading
   * down on a canvas 1000 wide, it is filtered out before it ever moves.
   */
  lemma SpawnVanishesOnNarrowCanvas()
    ensures var env := Env(1000, 600, 50, 50, 1);
      Tick(World(true, 79, None, [], []), env, SpawnChoice(3, 3), 0).cars == []
  {
  }

  /**
   * On a layout that holds every spawn point, each update whose new counter
   * is a multiple of SpawnInterval ends with exactly one new car, moved once,
   * after the moved survivors.
   */
  lemma TickSpawnsOnFittingLayout(w: World, env: Env, ch: SpawnChoice, frameId: int)
    requires ValidChoice(ch, env) && LayoutFits(env) && w.isRunning
    ensures var w' := Tick(w, env, ch, frameId);
      w'.cars == MoveAll(KeepOnCanvas(w.cars, env))
        + if w'.timeStep % SpawnInterval == 0 then [Moved(SpawnedCar(ch, env))] else []
  {
    TickSpawnsIffMultiple(w, env, ch, frameId);
    SpawnedCarOnCanvas(ch, env);
  }

  /**
   * The filter runs before the move: a car that was on canvas and leaves
   * it during this tick's move is still present after the tick, and the
   * next tick's filter is what removes it.
   */
  lemma DepartingCarLingersOneTick(w: World, env: Env, ch: SpawnChoice, frameId: int, c: CarState)
    requires ValidChoice(ch, env) && w.isRunning
    requires c in w.cars && !IsOffCanvas(c, env)
    ensures Moved(c) in Tick(w, env, ch, frameId).cars
    ensures IsOffCanvas(Moved(c), env) ==> Moved(c) !in KeepOnCanvas(Tick(w, env, ch, frameId).cars, env)
  {
    var t := w.timeStep + 1;
    var pending := w.cars + if t % SpawnInterval == 0 then [SpawnedCar(ch, env)] else [];
    assert c in pending;
    KeepOnCanvasMembership(pending, env, c);
    MoveAllMembership(KeepOnCanvas(pending, env), c);
    KeepOnCanvasMembership(Tick(w, env, ch, frameId).cars, env, Moved(c));
  }

  /** Every update while running rebuilds the same eight lights, whatever states the old ones had. */
  lemma TickRebuildsLights(w: World, env: Env, ch: SpawnChoice, frameId: int)
    requires ValidChoice(ch, env) && w.isRunning
    ensures Tick(w, env, ch, frameId).lights == LightTable()
  {
  }

  /** Starting a running loop changes nothing; starting a stopped one runs exactly one update. */
  lemma StartWhenRunningIsNoOp(w: World, env: Env, ch: SpawnChoice, frameId: int)
    requires ValidChoice(ch, env)
    ensures w.isRunning ==> Start(w, env, ch, frameId) == w
    ensures !w.isRunning ==>
              && Start(w, env, ch, frameId).isRunning
              && Start(w, env, ch, frameId).timeStep == w.timeStep + 1
  {
  }

  /** Stopping twice is stopping once, and the second stop cancels nothing. */
  lemma StopIdempotent(w: World)
    ensures Stop(Stop(w)) == Stop(w)
    ensures CancelledFrame(Stop(w)) == None
    ensures !Stop(w).isRunning
  {
  }

  /** One frame of the driver: the random draws and the handle the browser returns. */
  datatype Frame = Frame(choice: SpawnChoice, frameId: int)

  predicate ValidFrames(frames: seq<Frame>, env: Env) {
    forall i :: 0 <= i < |frames| ==> ValidChoice(frames[i].choice, env)
  }

  /** The driver calling `update` once per frame. */
  function Run(w: World, env: Env, frames: seq<Frame>): (r: World)
    requires ValidFrames(frames, env)
    decreases frames
  {
    if frames == [] then w
    else Run(Tick(w, env, frames[0].choice, frames[0].frameId), env, frames[1..])
  }

  /** How many of the updates of a run spawn a car. */
  function SpawnsDuring(w: World, env: Env, frames: seq<Frame>): (r: nat)
    requires ValidFrames(frames, env)
    decreases frames
  {
    if frames == [] then 0
    else
      (if w.isRunning && (w.timeStep + 1) % SpawnInterval == 0 then 1 else 0)
      + SpawnsDuring(Tick(w, env, frames[0].choice, frames[0].frameId), env, frames[1..])
  }

  lemma NextMultiple(t: nat)
    ensures (t + 1) / SpawnInterval == t / SpawnInterval + if (t + 1) % SpawnInterval == 0 then 1 else 0
  {
  }

  /**
   * While running, n updates advance the counter by n and spawn one car
   * per multiple of SpawnInterval passed; from a fresh start that is
   * n / SpawnInterval cars.
   */
  lemma {:induction false} RunSpawnSchedule(w: World, env: Env, frames: seq<Frame>)
    requires ValidFrames(frames, env) && w.isRunning
    decreases frames
    ensures Run(w, env, frames).isRunning
    ensures Run(w, env, frames).timeStep == w.timeStep + |frames|
    ensures SpawnsDuring(w, env, frames) == (w.timeStep + |frames|) / SpawnInterval - w.timeStep / SpawnInterval
  {
    if frames != [] {
      var w1 := Tick(w, env, frames[0].choice, frames[0].frameId);
      RunSpawnSchedule(w1, env, frames[1..]);
      NextMultiple(w.timeStep);
    }
  }
}
