/**
 * One generation of the simulation: every tick each car's controller picks
 * an action, then every car that is alive at that moment moves, is scored
 * and may become the new leader; the generation ends when no car was alive
 * at the start of a tick or after TickBudget ticks.
 *
 * The pure functions ActionPhase, UpdateFrom, Tick, RunFrom and Generation
 * specify the loop; the method RunSimulation runs it on Car objects and is
 * proved to compute exactly Generation.
 */
module Generation {
  import opened Geometry
  import opened Sensors
  import opened Controls
  import opened Vehicle

  /** A generation stops after this many ticks: 30 * 40, about 20 s at 60 frames per second. */
  const TickBudget: nat := 1200

  /**
   * A controller: the feed-forward network built from one genome, from the
   * five sensor values to its outputs.
   */
  type Network = seq<int> -> seq<real>

  /** Every controller answers a sensor vector with at least one output. */
  ghost predicate Responsive(nets: seq<Network>)
  {
    forall k, data :: 0 <= k < |nets| && |data| == |RadarOffsets| ==> |nets[k](data)| > 0
  }

  /** The bookkeeping of a generation: the cars, each genome's fitness, the leader's index. */
  datatype Pool = Pool(cars: seq<CarState>, fitness: seq<real>, furthest: nat)

  /** A pool part-way through a tick, with the number of cars found alive so far. */
  datatype Tally = Tally(pool: Pool, stillAlive: nat)

  /** How a generation ends: the final pool, the last tick's alive count, and the tick counter. */
  datatype Outcome = Outcome(pool: Pool, stillAlive: nat, ticks: nat)

  predicate AllSane(cars: seq<CarState>)
  {
    forall j :: 0 <= j < |cars| ==> Sane(cars[j])
  }

  /**
   * One fitness per car, every car sane, and a leader index inside the
   * population whenever there is one.
   */
  predicate WellFormed(p: Pool)
  {
    && |p.fitness| == |p.cars|
    && AllSane(p.cars)
    && (|p.cars| > 0 ==> p.furthest < |p.cars|)
  }

  /** Car `f` has the largest distance of all. */
  predicate Leads(cars: seq<CarState>, f: nat)
  {
    f < |cars| && forall j :: 0 <= j < |cars| ==> cars[j].distance <= cars[f].distance
  }

  /** The leader index names a car with maximal distance, when there is a car. */
  predicate LeaderIsFurthest(p: Pool)
  {
    |p.cars| > 0 ==> Leads(p.cars, p.furthest)
  }

  /** The number of cars that are alive. */
  function CountAlive(cars: seq<CarState>): (n: nat)
    ensures n <= |cars|
  {
    if cars == [] then 0
    else (if cars[0].alive then 1 else 0) + CountAlive(cars[1..])
  }

  /** The pool a generation starts from: `n` fresh cars, zero fitness, leader 0. */
  function Start(n: nat): (p: Pool)
    ensures WellFormed(p) && LeaderIsFurthest(p)
    ensures |p.cars| == n && p.furthest == 0
    ensures forall j :: 0 <= j < n ==> p.cars[j] == Initial() && p.fitness[j] == 0.0
  {
    Pool(seq(n, _ => Initial()), seq(n, _ => 0.0), 0)
  }

  /** The action the controller `net` picks for a car in state `s`. */
  function Decide(net: Network, s: CarState): (a: Action)
    requires Sane(s) && |net(SensorData(s.radars))| > 0
  {
    ActionOf(Choice(net(SensorData(s.radars))))
  }

  /** Every car, alive or not, applies the action its own controller picks. */
  function ActionPhase(cars: seq<CarState>, nets: seq<Network>): (r: seq<CarState>)
    requires |nets| == |cars| && Responsive(nets) && AllSane(cars)
    ensures |r| == |cars| && AllSane(r)
    ensures forall j :: 0 <= j < |cars| ==> r[j] == Steered(cars[j], Decide(nets[j], cars[j]))
  {
    seq(|cars|, j requires 0 <= j < |cars| => Steered(cars[j], Decide(nets[j], cars[j])))
  }

  /**
   * What the update pass does with car `i`: if it is alive, it is updated,
   * made the leader if it is now strictly further than the current leader,
   * and credited its reward; if not, nothing changes.
   */
  function Visit(p: Pool, i: nat, border: Mask, compass: Compass): (q: Pool)
    requires WellFormed(p) && i < |p.cars|
    ensures WellFormed(q) && |q.cars| == |p.cars|
  {
    if !p.cars[i].alive then p
    else
      var s := Updated(p.cars[i], border, compass);
      var cars := p.cars[i := s];
      var furthest := if s.distance > cars[p.furthest].distance then i else p.furthest;
      Pool(cars, p.fitness[i := p.fitness[i] + Reward(s)], furthest)
  }

  /**
   * The update pass of a tick from car `i` on, with `alive` cars counted so
   * far: each car in turn is counted if it is alive and visited.
   */
  function UpdateFrom(p: Pool, alive: nat, i: nat, border: Mask, compass: Compass): (t: Tally)
    requires WellFormed(p) && i <= |p.cars|
    ensures WellFormed(t.pool) && |t.pool.cars| == |p.cars|
    decreases |p.cars| - i
  {
    if i == |p.cars| then Tally(p, alive)
    else UpdateFrom(Visit(p, i, border, compass), alive + (if p.cars[i].alive then 1 else 0), i + 1, border, compass)
  }

  /** One tick: the action phase for all cars, then the update pass. */
  function Tick(p: Pool, nets: seq<Network>, border: Mask, compass: Compass): (t: Tally)
    requires WellFormed(p) && |nets| == |p.cars| && Responsive(nets)
    ensures WellFormed(t.pool) && |t.pool.cars| == |p.cars|
  {
    UpdateFrom(p.(cars := ActionPhase(p.cars, nets)), 0, 0, border, compass)
  }

  /**
   * The rest of a generation from tick counter `counter`: run a tick; stop
   * if nobody was alive at its start, otherwise count it and stop when the
   * counter reaches TickBudget.
   */
  function RunFrom(p: Pool, counter: nat, nets: seq<Network>, border: Mask, compass: Compass): (o: Outcome)
    requires WellFormed(p) && |nets| == |p.cars| && Responsive(nets) && counter < TickBudget
    ensures WellFormed(o.pool) && |o.pool.cars| == |p.cars|
    decreases TickBudget - counter
  {
    var t := Tick(p, nets, border, compass);
    if t.stillAlive == 0 then Outcome(t.pool, 0, counter)
    else if counter + 1 == TickBudget then Outcome(t.pool, t.stillAlive, counter + 1)
    else RunFrom(t.pool, counter + 1, nets, border, compass)
  }

  /** A whole generation, one car per controller. */
  function Generation(nets: seq<Network>, border: Mask, compass: Compass): (o: Outcome)
    requires Responsive(nets)
  {
    RunFrom(Start(|nets|), 0, nets, border, compass)
  }

  /** The update pass from car `i` on counts exactly the cars from `i` on that are alive. */
  lemma {:induction false} UpdateFromCount(p: Pool, alive: nat, i: nat, border: Mask, compass: Compass)
    requires WellFormed(p) && i <= |p.cars|
    ensures UpdateFrom(p, alive, i, border, compass).stillAlive == alive + CountAlive(p.cars[i..])
    decreases |p.cars| - i
  {
    if i < |p.cars| {
      var q := Visit(p, i, border, compass);
      UpdateFromCount(q, alive + (if p.cars[i].alive then 1 else 0), i + 1, border, compass);
      assert p.cars[i..][1..] == p.cars[i + 1..];
      assert q.cars[i + 1..] == p.cars[i + 1..];
    }
  }

  /**
   * The update pass from car `i` on leaves every car before `i`, and every
   * car from `i` on that is not alive, as it is, with its fitness.
   */
  lemma {:induction false} UpdateFromSkips(p: Pool, alive: nat, i: nat, border: Mask, compass: Compass)
    requires WellFormed(p) && i <= |p.cars|
    ensures var t := UpdateFrom(p, alive, i, border, compass);
      forall j :: 0 <= j < |p.cars| && (j < i || !p.cars[j].alive) ==>
        t.pool.cars[j] == p.cars[j] && t.pool.fitness[j] == p.fitness[j]
    decreases |p.cars| - i
  {
    if i < |p.cars| {
      UpdateFromSkips(Visit(p, i, border, compass), alive + (if p.cars[i].alive then 1 else 0), i + 1, border, compass);
    }
  }

  /**
   * The update pass from car `i` on replaces each car from `i` on that is
   * alive by its update and adds the updated car's reward to its fitness.
   */
  lemma {:induction false} UpdateFromAdvances(p: Pool, alive: nat, i: nat, border: Mask, compass: Compass)
    requires WellFormed(p) && i <= |p.cars|
    ensures var t := UpdateFrom(p, alive, i, border, compass);
      forall j :: i <= j < |p.cars| && p.cars[j].alive ==>
        && t.pool.cars[j] == Updated(p.cars[j], border, compass)
        && t.pool.fitness[j] == p.fitness[j] + Reward(t.pool.cars[j])
    decreases |p.cars| - i
  {
    if i < |p.cars| {
      var q := Visit(p, i, border, compass);
      var a := alive + (if p.cars[i].alive then 1 else 0);
      UpdateFromAdvances(q, a, i + 1, border, compass);
      UpdateFromSkips(q, a, i + 1, border, compass);
    }
  }

  /** Visiting one car keeps the leader index on a car with maximal distance. */
  lemma VisitKeepsLeader(p: Pool, i: nat, border: Mask, compass: Compass)
    requires WellFormed(p) && i < |p.cars| && LeaderIsFurthest(p)
    ensures LeaderIsFurthest(Visit(p, i, border, compass))
  {
    if p.cars[i].alive {
      var q := Visit(p, i, border, compass);
      assert p.cars[i].distance <= q.cars[i].distance;
      forall j | 0 <= j < |q.cars|
        ensures q.cars[j].distance <= q.cars[q.furthest].distance
      {
        assert p.cars[j].distance <= p.cars[p.furthest].distance;
      }
    }
  }

  /** The whole update pass keeps the leader index on a car with maximal distance. */
  lemma {:induction false} UpdateFromKeepsLeader(p: Pool, alive: nat, i: nat, border: Mask, compass: Compass)
    requires WellFormed(p) && i <= |p.cars| && LeaderIsFurthest(p)
    ensures LeaderIsFurthest(UpdateFrom(p, alive, i, border, compass).pool)
    decreases |p.cars| - i
  {
    if i < |p.cars| {
      VisitKeepsLeader(p, i, border, compass);
      UpdateFromKeepsLeader(Visit(p, i, border, compass), alive + (if p.cars[i].alive then 1 else 0), i + 1, border, compass);
    }
  }

  /** Cars with the same alive flags, position by position, have the same alive count. */
  lemma {:induction false} CountAliveByFlags(a: seq<CarState>, b: seq<CarState>)
    requires |a| == |b| && forall j :: 0 <= j < |a| ==> a[j].alive == b[j].alive
    ensures CountAlive(a) == CountAlive(b)
  {
    if a != [] {
      CountAliveByFlags(a[1..], b[1..]);
    }
  }

  /**
   * One tick: `stillAlive` is the number of cars alive at its start; every
   * car applies its controller's action; a car alive at the start is then
   * updated and earns the reward of its updated state, even if the update
   * kills it; a car not alive at the start keeps everything but its
   * heading and speed, stays not alive and earns nothing.
   */
  lemma TickEffect(p: Pool, nets: seq<Network>, border: Mask, compass: Compass)
    requires WellFormed(p) && |nets| == |p.cars| && Responsive(nets)
    ensures var t := Tick(p, nets, border, compass);
      && t.stillAlive == CountAlive(p.cars)
      && (forall j :: 0 <= j < |p.cars| && p.cars[j].alive ==>
            && t.pool.cars[j] == Updated(Steered(p.cars[j], Decide(nets[j], p.cars[j])), border, compass)
            && t.pool.fitness[j] == p.fitness[j] + Reward(t.pool.cars[j]))
      && (forall j :: 0 <= j < |p.cars| && !p.cars[j].alive ==>
            && t.pool.cars[j] == Steered(p.cars[j], Decide(nets[j], p.cars[j]))
            && t.pool.fitness[j] == p.fitness[j])
  {
    var acted := ActionPhase(p.cars, nets);
    UpdateFromSkips(p.(cars := acted), 0, 0, border, compass);
    UpdateFromAdvances(p.(cars := acted), 0, 0, border, compass);
    UpdateFromCount(p.(cars := acted), 0, 0, border, compass);
    assert acted[0..] == acted;
    CountAliveByFlags(acted, p.cars);
  }

  /** A tick keeps the leader index on a car with maximal distance. */
  lemma TickKeepsLeader(p: Pool, nets: seq<Network>, border: Mask, compass: Compass)
    requires WellFormed(p) && |nets| == |p.cars| && Responsive(nets) && LeaderIsFurthest(p)
    ensures LeaderIsFurthest(Tick(p, nets, border, compass).pool)
  {
    var acted := ActionPhase(p.cars, nets);
    assert LeaderIsFurthest(p.(cars := acted));
    UpdateFromKeepsLeader(p.(cars := acted), 0, 0, border, compass);
  }

  /**
   * The tick counter never passes TickBudget, and a generation ends either
   * with no car alive at the start of its last tick or with the counter at
   * TickBudget.
   */
  lemma {:induction false} RunFromEnds(p: Pool, counter: nat, nets: seq<Network>, border: Mask, compass: Compass)
    requires WellFormed(p) && |nets| == |p.cars| && Responsive(nets) && counter < TickBudget
    ensures var o := RunFrom(p, counter, nets, border, compass);
      && counter <= o.ticks <= TickBudget
      && (o.stillAlive == 0 || o.ticks == TickBudget)
      && o.stillAlive <= |p.cars|
    decreases TickBudget - counter
  {
    var t := Tick(p, nets, border, compass);
    TickEffect(p, nets, border, compass);
    if t.stillAlive != 0 && counter + 1 < TickBudget {
      RunFromEnds(t.pool, counter + 1, nets, border, compass);
    }
  }

  /** The leader index stays on a car with maximal distance to the end of a generation. */
  lemma {:induction false} RunFromKeepsLeader(p: Pool, counter: nat, nets: seq<Network>, border: Mask, compass: Compass)
    requires WellFormed(p) && |nets| == |p.cars| && Responsive(nets) && counter < TickBudget
    requires LeaderIsFurthest(p)
    ensures LeaderIsFurthest(RunFrom(p, counter, nets, border, compass).pool)
    decreases TickBudget - counter
  {
    var t := Tick(p, nets, border, compass);
    TickKeepsLeader(p, nets, border, compass);
    if t.stillAlive != 0 && counter + 1 < TickBudget {
      RunFromKeepsLeader(t.pool, counter + 1, nets, border, compass);
    }
  }

  /** A tick adds a non-negative reward to a fitness or leaves it as it is. */
  lemma TickFitnessGrows(p: Pool, nets: seq<Network>, border: Mask, compass: Compass)
    requires WellFormed(p) && |nets| == |p.cars| && Responsive(nets)
    ensures var t := Tick(p, nets, border, compass);
      forall j :: 0 <= j < |p.cars| ==> p.fitness[j] <= t.pool.fitness[j]
  {
    var t := Tick(p, nets, border, compass);
    TickEffect(p, nets, border, compass);
    forall j | 0 <= j < |p.cars|
      ensures p.fitness[j] <= t.pool.fitness[j]
    {
      assert Sane(t.pool.cars[j]);
    }
  }

  /** Fitness never decreases over the rest of a generation. */
  lemma {:induction false} RunFromFitnessGrows(p: Pool, counter: nat, nets: seq<Network>, border: Mask, compass: Compass)
    requires WellFormed(p) && |nets| == |p.cars| && Responsive(nets) && counter < TickBudget
    ensures var o := RunFrom(p, counter, nets, border, compass);
      forall j :: 0 <= j < |p.cars| ==> p.fitness[j] <= o.pool.fitness[j]
    decreases TickBudget - counter
  {
    var t := Tick(p, nets, border, compass);
    TickFitnessGrows(p, nets, border, compass);
    if t.stillAlive != 0 && counter + 1 < TickBudget {
      RunFromFitnessGrows(t.pool, counter + 1, nets, border, compass);
    }
  }

  /** In one tick a car that is not alive changes only its heading and speed and earns nothing. */
  lemma TickKeepsDeadFrozen(p: Pool, nets: seq<Network>, border: Mask, compass: Compass, j: nat)
    requires WellFormed(p) && |nets| == |p.cars| && Responsive(nets)
    requires j < |p.cars| && !p.cars[j].alive
    ensures var t := Tick(p, nets, border, compass);
      var c := t.pool.cars[j];
      !c.alive && c == p.cars[j].(angle := c.angle, speed := c.speed) && t.pool.fitness[j] == p.fitness[j]
  {
    TickEffect(p, nets, border, compass);
  }

  /**
   * A car that is not alive stays so to the end of the generation, its
   * fitness no longer changes, and nothing of it changes any more but its
   * heading and speed (which its controller still steers).
   */
  lemma {:induction false} RunFromKeepsDeadFrozen(p: Pool, counter: nat, nets: seq<Network>, border: Mask, compass: Compass, j: nat)
    requires WellFormed(p) && |nets| == |p.cars| && Responsive(nets) && counter < TickBudget
    requires j < |p.cars| && !p.cars[j].alive
    ensures var o := RunFrom(p, counter, nets, border, compass);
      var c := o.pool.cars[j];
      !c.alive && c == p.cars[j].(angle := c.angle, speed := c.speed) && o.pool.fitness[j] == p.fitness[j]
    decreases TickBudget - counter
  {
    var t := Tick(p, nets, border, compass);
    TickKeepsDeadFrozen(p, nets, border, compass, j);
    if t.stillAlive != 0 && counter + 1 < TickBudget {
      RunFromKeepsDeadFrozen(t.pool, counter + 1, nets, border, compass, j);
    }
  }

  /** A population that is all alive is counted in full. */
  lemma {:induction false} CountAliveAll(cars: seq<CarState>)
    requires forall j :: 0 <= j < |cars| ==> cars[j].alive
    ensures CountAlive(cars) == |cars|
  {
    if cars != [] {
      CountAliveAll(cars[1..]);
    }
  }

  /**
   * On a track with no border pixel no car ever crashes, so a non-empty
   * population runs the whole TickBudget with every car alive.
   */
  lemma {:induction false} OpenTrackRunsFullBudget(p: Pool, counter: nat, nets: seq<Network>, border: Mask, compass: Compass)
    requires WellFormed(p) && |nets| == |p.cars| && Responsive(nets) && counter < TickBudget
    requires border == {} && |p.cars| > 0 && forall j :: 0 <= j < |p.cars| ==> p.cars[j].alive
    ensures var o := RunFrom(p, counter, nets, border, compass);
      o.ticks == TickBudget && o.stillAlive == |p.cars|
    decreases TickBudget - counter
  {
    var t := Tick(p, nets, border, compass);
    TickEffect(p, nets, border, compass);
    CountAliveAll(p.cars);
    if counter + 1 < TickBudget {
      OpenTrackRunsFullBudget(t.pool, counter + 1, nets, border, compass);
    }
  }

  /**
   * What a whole generation guarantees: one car and one fitness per
   * controller; at most TickBudget ticks, and fewer only if no car was alive
   * at the start of the last one; the leader index names a car with maximal
   * distance; every fitness is non-negative.
   */
  lemma GenerationFacts(nets: seq<Network>, border: Mask, compass: Compass)
    requires Responsive(nets)
    ensures var o := Generation(nets, border, compass);
      && |o.pool.cars| == |o.pool.fitness| == |nets|
      && o.ticks <= TickBudget
      && (o.stillAlive == 0 || o.ticks == TickBudget)
      && (|nets| > 0 ==> Leads(o.pool.cars, o.pool.furthest))
      && forall j :: 0 <= j < |nets| ==> 0.0 <= o.pool.fitness[j]
  {
    var p := Start(|nets|);
    RunFromEnds(p, 0, nets, border, compass);
    RunFromKeepsLeader(p, 0, nets, border, compass);
    RunFromFitnessGrows(p, 0, nets, border, compass);
  }

  /**
   * Every car is alive when it is built, so each one is updated in the
   * first tick and earns at least the reward of one step at InitialSpeed,
   * even a car that crashes in that very update.
   */
  lemma FirstTickRewardsEveryCar(nets: seq<Network>, border: Mask, compass: Compass)
    requires Responsive(nets)
    ensures var o := Generation(nets, border, compass);
      forall j :: 0 <= j < |nets| ==> InitialSpeed as real / RewardScale <= o.pool.fitness[j]
  {
    var p := Start(|nets|);
    var t := Tick(p, nets, border, compass);
    TickEffect(p, nets, border, compass);
    assert forall j :: 0 <= j < |nets| ==> t.pool.fitness[j] == InitialSpeed as real / RewardScale;
    if t.stillAlive != 0 {
      RunFromFitnessGrows(t.pool, 1, nets, border, compass);
    }
  }

  /** With no controllers the generation ends at once, before any tick is counted. */
  lemma EmptyGenerationStops(border: Mask, compass: Compass)
    ensures Generation([], border, compass) == Outcome(Pool([], [], 0), 0, 0)
  {
    assert Start(0) == Pool([], [], 0);
  }

  /** On a track with no border pixel every car is still alive after TickBudget ticks. */
  lemma OpenTrackGeneration(nets: seq<Network>, border: Mask, compass: Compass)
    requires Responsive(nets) && |nets| > 0 && border == {}
    ensures var o := Generation(nets, border, compass);
      o.ticks == TickBudget && o.stillAlive == |nets|
  {
    OpenTrackRunsFullBudget(Start(|nets|), 0, nets, border, compass);
  }

  /** The states of a sequence of cars. */
  function States(cars: seq<Car>): (r: seq<CarState>)
    reads cars
    ensures |r| == |cars|
    ensures forall j :: 0 <= j < |cars| ==> r[j] == cars[j].State()
  {
    seq(|cars|, j requires 0 <= j < |cars| reads cars => cars[j].State())
  }

  /** No car object occurs twice. */
  predicate Distinct(cars: seq<Car>)
  {
    forall i, j :: 0 <= i < j < |cars| ==> cars[i] != cars[j]
  }

  /**
   * Runs one generation: builds one car per controller with zero fitness,
   * then ticks until no car was alive at the start of a tick or the counter
   * reaches TickBudget. The result is exactly Generation.
   */
  method RunSimulation(nets: seq<Network>, border: Mask, compass: Compass)
    returns (cars: seq<Car>, fitness: seq<real>, furthest: nat, stillAlive: nat, counter: nat)
    requires Responsive(nets)
    ensures Outcome(Pool(States(cars), fitness, furthest), stillAlive, counter) == Generation(nets, border, compass)
    ensures counter <= TickBudget && (stillAlive == 0 || counter == TickBudget)
    ensures |nets| > 0 ==> Leads(States(cars), furthest)
  {
    GenerationFacts(nets, border, compass);
    furthest := 0;
    cars, fitness := NewCars(|nets|);
    counter := 0;
    while true
      invariant |cars| == |nets| && Distinct(cars)
      invariant forall j :: 0 <= j < |cars| ==> fresh(cars[j])
      invariant WellFormed(Pool(States(cars), fitness, furthest)) && counter < TickBudget
      invariant RunFrom(Pool(States(cars), fitness, furthest), counter, nets, border, compass)
             == Generation(nets, border, compass)
      decreases TickBudget - counter
    {
      ghost var before := Pool(States(cars), fitness, furthest);
      ghost var rest := RunFrom(before, counter, nets, border, compass);
      SteerAll(cars, nets);
      fitness, furthest, stillAlive := UpdateAlive(cars, fitness, furthest, border, compass);
      ghost var after := Pool(States(cars), fitness, furthest);
      assert Tally(after, stillAlive) == Tick(before, nets, border, compass);
      if stillAlive == 0 {
        assert rest == Outcome(after, stillAlive, counter);
        break;
      }
      counter := counter + 1;
      if counter == TickBudget {
        assert rest == Outcome(after, stillAlive, counter);
        break;
      }
      assert rest == RunFrom(after, counter, nets, border, compass);
    }
  }

  /** One new car per genome, each with fitness 0. */
  method NewCars(n: nat) returns (cars: seq<Car>, fitness: seq<real>)
    ensures |cars| == n && Distinct(cars)
    ensures forall j :: 0 <= j < n ==> fresh(cars[j])
    ensures Pool(States(cars), fitness, 0) == Start(n)
  {
    cars := [];
    fitness := [];
    for i := 0 to n
      invariant |cars| == i && Distinct(cars)
      invariant forall j :: 0 <= j < i ==> fresh(cars[j])
      invariant States(cars) == Start(i).cars && fitness == Start(i).fitness
    {
      fitness := fitness + [0.0];
      var car := new Car();
      cars := cars + [car];
    }
  }

  /** Each car, dead or alive, applies the action its controller picks from its sensor data. */
  method SteerAll(cars: seq<Car>, nets: seq<Network>)
    requires |nets| == |cars| && Distinct(cars) && Responsive(nets) && AllSane(States(cars))
    modifies cars
    ensures States(cars) == ActionPhase(old(States(cars)), nets)
  {
    ghost var before := States(cars);
    ghost var acted := ActionPhase(before, nets);
    for i := 0 to |cars|
      invariant forall j :: 0 <= j < i ==> cars[j].State() == acted[j]
      invariant forall j :: i <= j < |cars| ==> cars[j].State() == before[j]
    {
      var output := nets[i](SensorData(cars[i].radars));
      var choice := Choice(output);
      assert ActionOf(choice) == Decide(nets[i], before[i]);
      cars[i].Steer(ActionOf(choice));
    }
    assert States(cars) == acted;
  }

  /**
   * The update pass of a tick on the cars: counts, updates and scores the
   * cars that are alive and keeps the leader index.
   */
  method UpdateAlive(cars: seq<Car>, fitness0: seq<real>, furthest0: nat, border: Mask, compass: Compass)
    returns (fitness: seq<real>, furthest: nat, stillAlive: nat)
    requires Distinct(cars) && WellFormed(Pool(States(cars), fitness0, furthest0))
    modifies cars
    ensures Tally(Pool(States(cars), fitness, furthest), stillAlive)
         == UpdateFrom(Pool(old(States(cars)), fitness0, furthest0), 0, 0, border, compass)
  {
    ghost var goal := UpdateFrom(Pool(States(cars), fitness0, furthest0), 0, 0, border, compass);
    fitness, furthest, stillAlive := fitness0, furthest0, 0;
    for i := 0 to |cars|
      invariant WellFormed(Pool(States(cars), fitness, furthest))
      invariant UpdateFrom(Pool(States(cars), fitness, furthest), stillAlive, i, border, compass) == goal
    {
      fitness, furthest, stillAlive := CountAndAdvance(cars, i, fitness, furthest, stillAlive, border, compass);
    }
  }

  /**
   * One step of the update pass: car `i` is counted and advanced if it is
   * alive, and left as it is otherwise.
   */
  method CountAndAdvance(cars: seq<Car>, i: nat, fitness0: seq<real>, furthest0: nat, alive0: nat,
                         border: Mask, compass: Compass)
    returns (fitness: seq<real>, furthest: nat, alive: nat)
    requires Distinct(cars) && WellFormed(Pool(States(cars), fitness0, furthest0)) && i < |cars|
    modifies cars
    ensures Pool(States(cars), fitness, furthest) == Visit(Pool(old(States(cars)), fitness0, furthest0), i, border, compass)
    ensures alive == alive0 + (if old(cars[i].alive) then 1 else 0)
  {
    fitness, furthest, alive := fitness0, furthest0, alive0;
    if cars[i].alive {
      alive := alive + 1;
      fitness, furthest := Advance(cars, i, fitness, furthest, border, compass);
    }
  }

  /**
   * Car `i`, which is alive, is updated, becomes the leader if it is now
   * strictly further than the current leader, and earns its reward.
   */
  method Advance(cars: seq<Car>, i: nat, fitness0: seq<real>, furthest0: nat, border: Mask, compass: Compass)
    returns (fitness: seq<real>, furthest: nat)
    requires Distinct(cars) && WellFormed(Pool(States(cars), fitness0, furthest0))
    requires i < |cars| && cars[i].alive
    modifies cars[i]
    ensures Pool(States(cars), fitness, furthest) == Visit(Pool(old(States(cars)), fitness0, furthest0), i, border, compass)
  {
    ghost var states := States(cars);
    cars[i].Update(border, compass);
    assert States(cars) == states[i := Updated(states[i], border, compass)];
    furthest := furthest0;
    if cars[i].distance > cars[furthest].distance {
      furthest := i;
    }
    fitness := fitness0[i := fitness0[i] + Reward(cars[i].State())];
  }
}
