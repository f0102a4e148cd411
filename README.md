# Car neuroevolution simulation — a Dafny model of the per-tick core

This project models the simulation and scoring core of a 2D top-down car
simulation. A population of neural-network controllers is evaluated by
letting each one drive its own car on a track image.

Each tick of a generation has two passes:

- **Action pass.** Every car's controller reads five quantised radar
  distances. The index of its largest output picks one of four actions:
  turn left, turn right, slow down or speed up.
- **Update pass.** Every car that is alive at that moment is processed in
  turn. It is counted, then moved. Its corners are tested against the track
  border, and its five radar rays are cast again. Its reward
  (distance / 30) is added to its genome's fitness. The index of the
  furthest car is kept up to date.

The generation ends when no car was alive at the start of a tick, or after
1200 ticks.

Modules:

- `Geometry`:
  - points (`Vec`, real coordinates) and pixels (`Pixel`, integer coordinates);
  - truncation toward zero (`Trunc`), as `int(...)` does;
  - the integer square root behind every radar distance (`FloorSqrt`);
  - the track mask (`Mask`, the set of border-coloured pixels);
  - the trigonometry (`Compass`, a table of 360 vectors, one per whole-degree heading, standing for the unit vectors of those headings; the type does not constrain them).
- `Sensors`:
  - the radar ray cast (`RayLength`, `Reading`, `Sweep`);
  - the car's corners and the collision test (`Corners`, `Collides`);
  - the controller's input vector (`SensorData`).
- `Controls`: the first-maximum choice (`MaxOf`, `IndexOf`, `Choice`) and its mapping to an `Action`.
- `Vehicle`:
  - the car as a value (`CarState`);
  - the pure specification of each change: `Steered`, `Moved`, `Updated`, `Reward`;
  - the class `Car`, whose methods make those changes in place, field by field, in the source's order. Each method is proved to produce exactly the specified state.
- `Generation`:
  - the generation loop as functions: `ActionPhase`, `Visit`, `UpdateFrom`, `Tick`, `RunFrom` and `Generation`;
  - lemmas about those functions;
  - the method `RunSimulation`, which runs the loop on `Car` objects. It is proved to compute exactly `Generation`.

Notes on behaviour that the model keeps as the code has it:

- **Vertical clamp.** The vertical coordinate is clamped to `[20, WIDTH]`
  (1920), not to `[20, HEIGHT]`. The model keeps this clamp as written.
  `VerticalClampPassesHeight` shows a car ending below the bottom edge of
  the image.
- **Steering dead cars.** The action pass steers every car, including cars
  that are no longer alive. A dead car's heading and speed therefore still
  change; nothing else about it does.
- **Counting alive cars.** `still_alive` counts the cars alive *before*
  their update. A car that crashes in an update has still been counted and
  still earns that tick's reward.
- **Spawning on the border.** Every car is built alive. So even a car that
  spawns on the border is updated once and earns one step's reward before
  it is found dead. A generation in which every car dies at once therefore
  does not leave fitness at 0 (`FirstTickRewardsEveryCar`).
- **The tick budget.** The counter is incremented only after a tick in
  which some car was alive. The generation therefore ends with a counter of
  at most 1200, and with exactly 1200 when cars are still alive.

## Model

| member | source | states |
|---|---|---|
| Geometry.Trunc | car.py:56 | truncation toward zero: for a non-negative real, the largest integer not above it; for a negative one, the smallest integer not below it |
| Geometry.SquareIsProduct | car.py:70 | the sum-of-odd-numbers square equals d * d for every integer d |
| Geometry.SqrtFromIsRoot | car.py:70 | counting up from any root candidate r with r² ≤ n ends at the s with s² ≤ n < (s+1)² |
| Geometry.FloorSqrtIsRoot | car.py:70 | FloorSqrt(n) is the integer part of √n: r * r ≤ n < (r+1) * (r+1) |
| Geometry.MaxReal | car.py:80 | the result is one of the two arguments and at least both |
| Geometry.MinReal | car.py:81 | the result is one of the two arguments and at most both |
| Controls.MaxOf | car.py:167 | `max(output)`: an element of the output that no element exceeds |
| Controls.IndexOf | car.py:167 | `output.index(v)`: an index holding v with no earlier index holding v |
| Controls.ChoiceIsFirstMaximum | car.py:167 | the chosen index is the lowest index holding the maximum output, and no other index is chosen (both directions) |
| Controls.ActionOf | car.py:168-176 | choice 0, 1 and 2, and only they, pick turn left, turn right and slow down; every other index speeds up |
| Sensors.RayLength | car.py:65-68 | the ray stops at a step in [length, 300]; below 300 the pixel there is a border; no pixel sampled before it is a border |
| Sensors.RayStopsAtFirstBorder | car.py:61-68 | n is the ray length iff n ≤ 300, the pixel at n is a border when n < 300, and no pixel at a smaller step is a border |
| Sensors.OpenTrackRayRunsFullRange | car.py:65 | with no border pixel a ray runs all 300 steps and stops on the pixel of step 300 |
| Sensors.DistanceIsFloorOfEuclidean | car.py:70 | the reading's distance d satisfies d² ≤ dx² + dy² < (d+1)² |
| Sensors.SweepReadings | car.py:101-102 | reading k of a sweep is the radar at offset −90 + 45k from the heading, for the five offsets in order |
| Sensors.SensorData | car.py:104-111 | five slots; slot i is radar i's distance divided by 30 and rounded down while that radar exists, 0 otherwise; every slot is non-negative |
| Vehicle.Clamp | car.py:80-86 | the clamped coordinate lies in [20, WIDTH], equals the input inside it and the bound it passed outside it |
| Vehicle.Steered | car.py:168-176 | a turn moves the heading by ±10; slowing down takes exactly 2 off the speed when the result stays ≥ 12 and otherwise leaves it as it was; speeding up adds 2; nothing but angle and speed changes; sanity is kept |
| Vehicle.Moved | car.py:75-95 | the new position is the old one moved by the heading's vector times the speed (20 on the first update), each coordinate clamped to [20, WIDTH] |
| Vehicle.Updated | car.py:73-102 | speed becomes 20 on the first update only and speedSet is set; heading kept; distance grows by the speed, time by 1; both coordinates in [20, WIDTH] (where exactly: UpdatedMovesAlongHeading); centre and corners recomputed; alive iff no corner pixel is a border; radars are exactly the fresh five-ray sweep; a sane car stays sane and its distance grows by at least 12 |
| Vehicle.UpdatedMovesAlongHeading | car.py:75-86 | an update moves the car one step of its new speed along its heading, each coordinate then clamped to [20, WIDTH] |
| Vehicle.Reward | car.py:116-117 | the reward times 30 is the distance, and it is non-negative when the distance is |
| Vehicle.VerticalClampPassesHeight | car.py:84-86 | a car heading straight down from y = WIDTH − 10 at speed 20 ends at y = WIDTH, below HEIGHT |
| Vehicle.Car.constructor | car.py:24-40 | a new car is at (830, 920) with heading 0, speed 0 not yet set, centre (860, 950), no radars, alive, distance and time 0 |
| Vehicle.Car.Steer | car.py:168-176 | the car's new state is Steered of its old state |
| Vehicle.Car.CheckCollision | car.py:53-58 | alive is false iff some corner's truncated pixel is a border |
| Vehicle.Car.CheckRadar | car.py:60-71 | exactly one reading is appended: the ray at `degree` from the heading, stopped at the first border pixel or at 300 steps |
| Vehicle.Car.Move | car.py:75-95 | the speed, position, distance, time, centre and corners become those of Moved |
| Vehicle.Car.ScanRadars | car.py:99-102 | the readings are replaced by exactly the five-ray sweep from the current centre and heading |
| Vehicle.Car.Update | car.py:73-102 | the car's new state is Updated of its old state |
| Generation.Start | car.py:139-144 | one initial car and fitness 0 per genome, leader 0, the leader is a furthest car |
| Generation.ActionPhase | car.py:165-176 | every car, alive or not, is steered by the action its own controller picks from its sensor data |
| Generation.UpdateFromCount | car.py:180-183 | the alive count of the update pass is exactly the number of cars alive before it |
| Generation.UpdateFromSkips | car.py:181-182 | the update pass leaves every car that is not alive, and its fitness, unchanged |
| Generation.UpdateFromAdvances | car.py:181-187 | each car alive before the pass is replaced by its update, and its fitness grows by the updated car's reward |
| Generation.VisitKeepsLeader | car.py:185-186 | processing one car keeps the leader index on a car of maximal distance |
| Generation.UpdateFromKeepsLeader | car.py:180-187 | the whole update pass keeps the leader index on a car of maximal distance |
| Generation.TickEffect | car.py:165-187 | one tick: alive count = cars alive at its start; a live car is steered then updated and earns the reward of its updated state; a dead car is only steered and earns nothing |
| Generation.TickKeepsLeader | car.py:165-187 | a tick keeps the leader index on a car of maximal distance |
| Generation.TickFitnessGrows | car.py:187 | a tick never lowers a fitness |
| Generation.TickKeepsDeadFrozen | car.py:182 | in a tick a dead car stays dead, earns nothing and changes nothing but heading and speed |
| Generation.RunFromEnds | car.py:190-195 | the counter never passes 1200, and the loop ends with no car alive at the start of the last tick or with the counter at 1200 |
| Generation.RunFromKeepsLeader | car.py:159-195 | to the end of the generation the leader index names a car of maximal distance |
| Generation.RunFromFitnessGrows | car.py:187 | fitness never decreases over the rest of a generation |
| Generation.RunFromKeepsDeadFrozen | car.py:182 | a dead car stays dead to the end, its fitness is final, and only its heading and speed still change |
| Generation.OpenTrackRunsFullBudget | car.py:190-195 | with no border pixel, a non-empty population that is all alive runs to counter 1200 with every car still counted |
| Generation.GenerationFacts | car.py:128-195 | a whole generation: one car and fitness per genome; at most 1200 ticks and fewer only if nobody was alive; the leader is a furthest car; every fitness ≥ 0 |
| Generation.FirstTickRewardsEveryCar | car.py:180-187 | every car is updated in the first tick and ends with fitness at least 20 / 30, even one that crashes at once |
| Generation.EmptyGenerationStops | car.py:190-191 | with no genomes the loop stops in its first tick with counter 0 |
| Generation.OpenTrackGeneration | car.py:190-195 | with no border pixel and at least one genome the generation runs exactly 1200 ticks with every car alive |
| Generation.NewCars | car.py:139-144 | builds distinct fresh cars in their initial state with fitness 0, giving the Start pool |
| Generation.SteerAll | car.py:165-176 | the cars' new states are exactly ActionPhase of their old states |
| Generation.Advance | car.py:183-187 | a live car is updated, becomes the leader iff it is now strictly further than the current leader, and earns its reward |
| Generation.CountAndAdvance | car.py:181-187 | one step of the update pass: the alive count grows by one iff car i was alive, and the cars, fitness and leader become exactly Visit of the old pool |
| Generation.UpdateAlive | car.py:180-187 | the cars, fitness, leader and alive count become exactly those of the update pass UpdateFrom |
| Generation.RunSimulation | car.py:128-195 | the final cars, fitness, leader, alive count and counter are exactly Generation; the counter is at most 1200 and the loop ended with nobody alive or at 1200; the leader is a furthest car |

## Left out

- Rendering is not modelled. This covers sprite loading and rotation, drawing of the car, radars, map, text and network, the display, and frame pacing. None of it feeds back into the simulation state.
- The NEAT library is not modelled. Each genome's controller is a parameter: a total function from the five sensor values to the output vector.
  - `Responsive` requires every controller to give at least one output, because the source's `max` of an empty output would raise.
  - Genome fitness is returned as a sequence, one entry per genome, starting at 0.
- The quit event and `sys.exit` are not modelled, nor is the global generation counter, which is only shown as text.
- Floating point is not modelled: positions and rewards are exact reals.
  - `Compass` is a table of 360 vectors standing for cos and sin of `radians(360 - a)`; the type does not constrain them to be unit vectors. Angles are looked up modulo 360; the rounding differences between `radians(360 - a)` for angles that agree modulo 360 are not modelled.
  - The ray pixel, the displacement and the corners are computed with the source's formulas over this table.
  - A NaN output is not modelled.
- Pixel sampling outside the image is not modelled. The mask is a set of border pixels, and any pixel not in it, including any outside the image, counts as track.
- `is_alive` is read as the `alive` field directly; it has no member of its own.
- Sensors.SensorData: the bound of 10 on each slot (from the 300-step range) is not stated, because the compass table is not constrained to unit vectors.
- Sensors.Corners: its contract states only that there are four corners; where they lie is given by its definition.
