# Traffic simulation core, modelled in Dafny

This project models the logic of a browser traffic-intersection
simulation. Cars are spawned at the canvas edges and moved along their
direction, a fixed set of eight traffic lights is rebuilt on every animation
frame, and a frame loop counts ticks, spawns cars and removes cars that
have left the canvas.

- `CarAgent` (car.dfy) models `Car` (src/agents/Car.ts). It is a class
  with fields `x`, `y`, `speed` and `direction`. `Move` shifts exactly one
  coordinate by `speed`, chosen by the direction string. An unrecognised
  direction changes nothing. `UpdateDirection` overwrites the direction.
  The value `CarState` and the function `Moved` specify `Move`.
- `LightAgent` (traffic_light.dfy) models `TrafficLightAgent`
  (src/agents/TrafficLightAgent.ts). It is a class with fields `x`, `y` and
  `state`. `UpdateState` overwrites the state without validating it. The
  image choice inside `draw` is the pure selector `SelectImage`. It gives
  `None` where the source logs "Invalid light status".
- `SimulationRules` (simulation_rules.dfy) holds the per-frame rules of
  `SimulationComponent` (src/Simulation.ts) as functions on values:
  - the despawn test `IsOffCanvas` and the filter `KeepOnCanvas`;
  - the spawn tables `SpawnSides` and `SpawnPoints`, and the spawned car;
  - the light tables `LightPoints`, `LightStatus` and `LightTable`;
  - the frame loop on the value `World`: `Tick` is one `update`, `Start`
    is `startGameLoop` and `Stop` is `stopGameLoop`.
- `Simulation` (simulation.dfy) holds the class `SimulationComponent`. Its
  fields `isRunning`, `timeStep`, `animationFrameId`, `cars` and
  `trafficLightAgents` are updated in place. Each method is proved against
  the matching function of `SimulationRules` on the component's `Snapshot()`.

The browser's inputs are parameters:
- The canvas and car-image sizes are an `Env` fixed for a component.
- The two `Math.random` draws are a `SpawnChoice`: a side index below 4
  and a point index below the length of that side's table.
- The handle returned by `requestAnimationFrame` is a `frameId` argument.
- The handle passed to `cancelAnimationFrame` is the result of `StopGameLoop`.

Two call sites in src/Simulation.ts do not match the declarations they call.
Each class is modelled by its own declaration, and the component uses the
evidently intended arguments:
- Lines 276-282 call `new Car(x, y, direction, road, img)`, but the
  constructor is declared as `(x, y, speed, direction, img)`. As written,
  the side string lands in `speed` and the road label `'1'`..`'4'` in
  `direction`. No case of the switch in `move` (src/agents/Car.ts:55-68)
  matches such a direction, so a spawned car never moves, and one spawned on
  the canvas is never removed. `SpawnedCarAsWritten` and
  `AsWrittenSpawnStaysPut` model this. The component instead builds the car
  from the spawn point, the side's direction and a speed `Env.carSpeed`
  (`SpawnedCar`). See "## Findings".
- Lines 204-212 pass seven arguments, including an id `i + 1`, to a
  constructor that takes six. As written, the number `i + 1` lands in
  `state`, so `draw` reports "Invalid light status" for all eight lights on
  every frame (src/agents/TrafficLightAgent.ts:60-61). The model builds each
  light from its table position and status. The light at index `i` is the
  one numbered `i + 1`.

JavaScript numbers are modelled as unbounded integers.

## Model

| member | source | states |
|---|---|---|
| `CarAgent.Moved` | src/agents/Car.ts:54-69 | one move adds speed times the unit step of the direction (left -1 and right +1 on x, up -1 and down +1 on y); the other coordinate, speed and direction are unchanged; an unrecognised direction or speed 0 leaves the car unchanged |
| `CarAgent.MovedTimesAlongAxis` | src/agents/Car.ts:54-69 | after n moves the orthogonal coordinate is unchanged and the car has travelled exactly n times its speed in the sense of its direction |
| `CarAgent.MoveThenReverse` | src/agents/Car.ts:56-67 | a move followed by a move in the opposite direction returns the car to its start |
| `CarAgent.Car.constructor` | src/agents/Car.ts:8-20 | stores x, y, speed and direction exactly as given |
| `CarAgent.Car.Move` | src/agents/Car.ts:54-69 | the new state of the car is `Moved` of its old state |
| `CarAgent.Car.UpdateDirection` | src/agents/Car.ts:72-74 | overwrites the direction only; x, y and speed are untouched |
| `LightAgent.SelectImage` | src/agents/TrafficLightAgent.ts:32-62 | an image is selected iff the state is "red", "yellow" or "green"; any other state is reported as invalid |
| `LightAgent.SelectImageInverse` | src/agents/TrafficLightAgent.ts:32-61 | a state selects an image iff it is that image's state name |
| `LightAgent.SelectImageInjective` | src/agents/TrafficLightAgent.ts:32-59 | the three recognised states select three distinct images |
| `LightAgent.TrafficLightAgent.constructor` | src/agents/TrafficLightAgent.ts:10-24 | stores x, y and state exactly as given |
| `LightAgent.TrafficLightAgent.UpdateState` | src/agents/TrafficLightAgent.ts:66-68 | sets the state to the argument unconditionally and leaves x and y unchanged |
| `LightAgent.TrafficLightAgent.DrawnImage` | src/agents/TrafficLightAgent.ts:27-63 | the image drawn for the current state is the one named by that state, or none for an invalid state |
| `LightAgent.UpdateStateTwice` | src/agents/TrafficLightAgent.ts:66-68 | setting the same state twice leaves the light as setting it once does |
| `SimulationRules.IsOffCanvas` | src/Simulation.ts:289-300 | the despawn test: a car is off canvas when it is more than an image width beyond the left or right edge, more than an image height above the top, or more than an image WIDTH below the bottom, as written; with non-negative image sizes a car positioned on the canvas is never off canvas |
| `SimulationRules.KeepOnCanvas` | src/Simulation.ts:288-302 | the filter never returns more cars than it was given |
| `SimulationRules.KeepOnCanvasMembership` | src/Simulation.ts:289-301 | a car survives iff it was present and none of the four bound tests holds, the lower one using the image width as written |
| `SimulationRules.KeepOnCanvasAppend` | src/Simulation.ts:288 | filtering a concatenation is concatenating the filtered parts, so survivors keep their relative order |
| `SimulationRules.KeepOnCanvasAllInBounds` | src/Simulation.ts:288-302 | when every car is in bounds the filter keeps them all, in place |
| `SimulationRules.KeepOnCanvasIdempotent` | src/Simulation.ts:288-302 | filtering twice is filtering once |
| `SimulationRules.MoveAll` | src/Simulation.ts:303-306 | every car of the list is moved once by `Moved`, keeping the number and the order of the cars |
| `SimulationRules.SpawnPoints` | src/Simulation.ts:221-271 | the spawn table of a side: a table exists exactly for the four direction strings (the `default` branch throws otherwise), two points for right and left and four for up and down, all on the edge the cars enter from (x = 0 for right, x = canvas width for left, y = canvas height for up, y = 0 for down) |
| `SimulationRules.EverySideHasPoints` | src/Simulation.ts:245-271 | every side the random index can pick has a table of two or four points, so the `throw` is unreachable |
| `SimulationRules.SpawnedCar` | src/Simulation.ts:221-282 | the spawned car heads the way of the chosen side and sits at a point of that side's table: right x = 0, y in {153, 493}; left x = canvas width, y in {188, 527}; up y = canvas height, x in {153, 493, 835, 1177}; down y = 0, x in {190, 530, 872, 1212} |
| `SimulationRules.SpawnedCarOnCanvas` | src/Simulation.ts:221-243 | when the canvas reaches the furthest spawn coordinates and image sizes are non-negative, a spawned car is never off canvas |
| `SimulationRules.SpawnedCarAdvances` | src/Simulation.ts:257-282 | a spawned car with a nonzero speed leaves its spawn point on its first move |
| `SimulationRules.SpawnedCarAsWritten` | src/Simulation.ts:276-282 | the car built by the call as written sits at the chosen spawn point with a road label `'1'`..`'4'` as its direction, which is not a recognised direction |
| `SimulationRules.AsWrittenSpawnStaysPut` | src/Simulation.ts:276-282 | as written, a spawned car stays at its spawn point through any number of moves, and on a layout that holds the spawn points it is never off canvas |
| `SimulationRules.LightTable` | src/Simulation.ts:178-213 | exactly eight lights, in table order, each with its table position and status |
| `SimulationRules.LightTableWellFormed` | src/Simulation.ts:178-201 | every table status is a recognised state and no two lights share a position |
| `SimulationRules.Tick` | src/Simulation.ts:314-323 | one `update`: when not running, the state is unchanged; when running, add 1 to the counter, build the spawned car iff the new counter is a multiple of 80, set the lights to `LightTable`, set the cars to the moved survivors of the old cars plus the due spawn, and store the frame handle; the running flag never changes, and the cars grow by at most one, only on a due tick |
| `SimulationRules.Start` | src/Simulation.ts:309-325 | `startGameLoop`: a running loop is left unchanged; a stopped one is set running and runs one `Tick`; either way the loop is running afterwards |
| `SimulationRules.CancelledFrame` | src/Simulation.ts:330-331 | the handle passed to `cancelAnimationFrame`: present exactly when the stored handle is truthy (not null and not 0), and then equal to it |
| `SimulationRules.Stop` | src/Simulation.ts:327-334 | `stopGameLoop`: the loop is not running and no truthy handle remains stored; counter, cars and lights are unchanged |
| `SimulationRules.TickAdvancesClock` | src/Simulation.ts:314-323 | an update while running keeps it running, adds exactly 1 to the counter and stores the new frame handle; otherwise it changes nothing |
| `SimulationRules.TickSpawnsIffMultiple` | src/Simulation.ts:315-320 | after an update the cars are the moved survivors of the old cars, followed by the moved spawned car iff the new counter is a multiple of 80 and the spawn point is not already off canvas |
| `SimulationRules.SpawnVanishesOnNarrowCanvas` | src/Simulation.ts:315-320 | on a canvas 1000 wide, a car spawned at x = 1212 on the 80th update is filtered out in that same update |
| `SimulationRules.TickSpawnsOnFittingLayout` | src/Simulation.ts:315-320 | when the canvas is at least 1212 by 527 and image sizes are non-negative, an update ends with exactly one new moved car after the moved survivors iff the new counter is a multiple of 80 |
| `SimulationRules.DepartingCarLingersOneTick` | src/Simulation.ts:287-306 | the filter runs before the move, so a car that leaves the canvas while moving is still present after the tick and only the next filter removes it |
| `SimulationRules.TickRebuildsLights` | src/Simulation.ts:341-346 | every update while running replaces the lights by the fixed table, discarding the old lights' states |
| `SimulationRules.StartWhenRunningIsNoOp` | src/Simulation.ts:309-325 | starting a running loop changes nothing; starting a stopped loop sets it running and runs one update |
| `SimulationRules.StopIdempotent` | src/Simulation.ts:327-334 | stopping leaves the loop not running; stopping twice equals stopping once, and the second stop cancels nothing |
| `SimulationRules.RunSpawnSchedule` | src/Simulation.ts:314-323 | n updates while running add n to the counter and spawn exactly one car per multiple of 80 passed |
| `Simulation.Survivors` | src/Simulation.ts:288-302 | the filter on car objects keeps some of the old objects, and their values are exactly `KeepOnCanvas` of the old values |
| `Simulation.SurvivorsDistinct` | src/Simulation.ts:288-302 | the filter never duplicates a car object |
| `Simulation.MoveEach` | src/Simulation.ts:303-306 | each car of the list moves exactly once |
| `Simulation.SimulationComponent.constructor` | src/Simulation.ts:21-34 | a new component is not running, has counter 0, no frame handle, no cars and no lights |
| `Simulation.SimulationComponent.SpawnCarRandomly` | src/Simulation.ts:220-285 | appends exactly one new car object at the end, with the value `SpawnedCar`; existing cars and other fields are unchanged |
| `Simulation.SimulationComponent.DrawTrafficLights` | src/Simulation.ts:177-213 | replaces the light list by eight new light objects whose values are `LightTable` |
| `Simulation.SimulationComponent.MoveCars` | src/Simulation.ts:287-307 | the cars become the filtered old cars, each then moved once |
| `Simulation.SimulationComponent.Draw` | src/Simulation.ts:341-347 | rebuilds the lights, then filters and moves the cars |
| `Simulation.SimulationComponent.CountTick` | src/Simulation.ts:315-319 | adds 1 to the counter and appends the spawned car iff the new counter is a multiple of 80; the running flag, the frame handle and the light list are unchanged |
| `Simulation.SimulationComponent.Update` | src/Simulation.ts:314-323 | the new state of the component is `Tick` of its old state |
| `Simulation.SimulationComponent.StartGameLoop` | src/Simulation.ts:309-325 | the new state of the component is `Start` of its old state |
| `Simulation.SimulationComponent.StopGameLoop` | src/Simulation.ts:327-334 | the new state is `Stop` of the old state; returns the handle to cancel iff one was pending (non-null and non-zero, as JavaScript truthiness has it) |

## Left out

- All drawing: the background, `clearRect`, the `drawImage` calls and `Car.draw`. Its rotation angles are floating point and only presentational.
- Image loading, the `onload` counter that starts the loop, and the `onerror` handlers. These are browser callbacks.
- `requestAnimationFrame` and `cancelAnimationFrame` themselves, and `disconnectedCallback`. The frame driver is the caller of `Update`; only the state these touch is modelled.
- The click handler and `synchronizeCanvas`. They only read the DOM and log. Canvas and image sizes are the `Env` parameter and stay fixed for a component.
- `Math.random`. It is replaced by the caller-supplied `SpawnChoice`.
- The image fields of both agents and the `img` argument of `Car`'s constructor. They only matter for drawing.
- The light list passed to `car.move(...)` at src/Simulation.ts:304. `move` takes no parameter, so the argument has no effect and is not modelled.
- The shifted arguments of the two constructor calls (src/Simulation.ts:276-282 and 204-212). The component uses the intended values. As written, spawned cars never move and every light is drawn as invalid; the introduction above gives the details. `AsWrittenSpawnStaysPut` models the car half. The light half is not modelled, because the model's light state is a string and the source stores a number there.
- The `road` label of a spawn point as a car property. It is kept in the table data. `Car` declares no road field, and the intended call passes no road label.
- Stop lines, governing lights, car following and a spawn clearance check. The source has none of them.
- src/MainPage.ts, src/Console.ts and src/Visualization.ts are layout shells and are not part of this model.
- `SimulationRules.SpawnedCarOnCanvas` assumes a canvas at least 1212 by 527 with non-negative image sizes. On a smaller canvas a spawn point can already be out of bounds, and the filter in the same update removes that car.
- `SimulationRules.TickSpawnsOnFittingLayout` makes the same layout assumption. `SimulationRules.TickSpawnsIffMultiple` states the general case without it.
- Floating-point behaviour of JavaScript numbers, such as fractional sizes or precision loss past 2^53, is not modelled.

## Findings

| source | as written | input that shows it | evidently intended | confidence | as-written member | corrected member |
|---|---|---|---|---|---|---|
| src/Simulation.ts:276-282 | the spawn call passes (x, y, direction, road, img) to a constructor declared as (x, y, speed, direction, img), so the road label becomes the direction | any spawn, e.g. side `'right'`, point 0: the car gets direction `'1'`, which `move` ignores | the car heads the way of its spawn side at some speed | high, not executed | `SimulationRules.AsWrittenSpawnStaysPut` | `SimulationRules.SpawnedCarAdvances` |
