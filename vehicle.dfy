/**
 * One car: its state as a value (CarState), the pure specification of
 * each change the simulation makes to it (Steered, Updated, Reward), and
 * the class Car whose methods make those changes in place, field by field,
 * as the simulation does.
 */
module Vehicle {
  import opened Geometry
  import opened Sensors
  import opened Controls

  /** Width and height of the screen and the track image, in pixels. */
  const Width: int := 1920
  const Height: int := 1080

  /** Side of the (square) car sprite, in pixels. */
  const CarSize: int := 60

  /** The lower bound of both position coordinates after a move. */
  const EdgeMargin: real := 20.0

  /** Where every car starts (top-left anchor of the sprite). */
  const StartPosition: Vec := Vec(830.0, 920.0)

  /** The speed a car gets on its first update. */
  const InitialSpeed: int := 20

  /** Slowing down is refused when it would take the speed below this. */
  const MinSpeed: int := 12

  /** Degrees a turn adds to or takes from the heading. */
  const TurnStep: int := 10

  /** What speeding up adds and slowing down takes. */
  const SpeedStep: int := 2

  /** Reward is distance travelled in units of half a car. */
  const RewardScale: real := 30.0

  /**
   * A snapshot of every field of a car the simulation reads or writes.
   * `corners` is empty until the first update computes it.
   */
  datatype CarState = CarState(
    position: Vec,
    angle: int,
    speed: int,
    speedSet: bool,
    center: Pixel,
    radars: seq<Radar>,
    alive: bool,
    distance: int,
    time: int,
    corners: seq<Vec>)

  /** The centre of a car: its truncated position plus half its size. */
  function CenterOf(position: Vec): (p: Pixel)
  {
    Pixel(Trunc(position.x) + CarSize / 2, Trunc(position.y) + CarSize / 2)
  }

  /** A freshly constructed car. */
  function Initial(): (s: CarState)
  {
    CarState(StartPosition, 0, 0, false, CenterOf(StartPosition), [], true, 0, 0, [])
  }

  /**
   * What every state the simulation produces satisfies: at most five
   * readings, a non-negative speed that is at least MinSpeed once it has
   * been set, and non-negative distance and time.
   */
  predicate Sane(s: CarState)
  {
    && |s.radars| <= |RadarOffsets|
    && 0 <= s.speed
    && (s.speedSet ==> MinSpeed <= s.speed)
    && 0 <= s.distance
    && 0 <= s.time
  }

  /**
   * A position coordinate after a move: at least EdgeMargin and at most
   * Width. The vertical coordinate is bounded by Width as well.
   */
  function Clamp(v: real): (c: real)
    ensures EdgeMargin <= c <= Width as real
    ensures EdgeMargin <= v <= Width as real ==> c == v
    ensures v < EdgeMargin ==> c == EdgeMargin
    ensures v > Width as real ==> c == Width as real
  {
    MinReal(MaxReal(v, EdgeMargin), Width as real)
  }

  /**
   * The effect of one action: a turn moves the heading by TurnStep, slowing
   * down takes SpeedStep off the speed unless that would go below MinSpeed,
   * speeding up adds SpeedStep without limit; nothing else changes.
   */
  function Steered(s: CarState, a: Action): (r: CarState)
    ensures r == s.(angle := r.angle, speed := r.speed)
    ensures r.angle == s.angle + (if a == TurnLeft then TurnStep else if a == TurnRight then -TurnStep else 0)
    ensures a == SlowDown ==>
      r.speed == (if s.speed - SpeedStep >= MinSpeed then s.speed - SpeedStep else s.speed)
    ensures a == SpeedUp ==> r.speed == s.speed + SpeedStep
    ensures (a == TurnLeft || a == TurnRight) ==> r.speed == s.speed
    ensures Sane(s) ==> Sane(r)
  {
    match a
    case TurnLeft => s.(angle := s.angle + TurnStep)
    case TurnRight => s.(angle := s.angle - TurnStep)
    case SlowDown => if s.speed - SpeedStep >= MinSpeed then s.(speed := s.speed - SpeedStep) else s
    case SpeedUp => s.(speed := s.speed + SpeedStep)
  }

  /**
   * The motion part of an update: the speed is set to InitialSpeed the
   * first time only; the car moves one step of `speed` along its heading and
   * both coordinates are clamped to [EdgeMargin, Width]; distance grows by
   * the speed and time by one; the centre and corners are recomputed.
   */
  function Moved(s: CarState, compass: Compass): (r: CarState)
    ensures r.speed == (if s.speedSet then s.speed else InitialSpeed)
    ensures r.position == Vec(
      Clamp(s.position.x + Scale(Dir(compass, s.angle).x, r.speed)),
      Clamp(s.position.y + Scale(Dir(compass, s.angle).y, r.speed)))
  {
    var speed := if s.speedSet then s.speed else InitialSpeed;
    var moved := Along(s.position, Dir(compass, s.angle), speed);
    var position := Vec(Clamp(moved.x), Clamp(moved.y));
    var center := CenterOf(position);
    s.(speed := speed, speedSet := true, position := position, center := center,
       distance := s.distance + speed, time := s.time + 1,
       corners := Corners(center, s.angle, compass))
  }

  /**
   * One update of a car: it moves (see Moved), it is alive iff none of its
   * new corners is on a border pixel, and the five radars are cast afresh
   * in the order of RadarOffsets.
   */
  function Updated(s: CarState, border: Mask, compass: Compass): (r: CarState)
    ensures r.speedSet && r.speed == (if s.speedSet then s.speed else InitialSpeed)
    ensures r.angle == s.angle
    ensures r.distance == s.distance + r.speed && r.time == s.time + 1
    ensures EdgeMargin <= r.position.x <= Width as real
    ensures EdgeMargin <= r.position.y <= Width as real
    ensures r.center == CenterOf(r.position)
    ensures r.corners == Corners(r.center, r.angle, compass)
    ensures r.alive <==> forall k :: 0 <= k < |r.corners| ==> TruncPixel(r.corners[k]) !in border
    ensures r.radars == Sweep(r.center, r.angle, border, compass)
    ensures Sane(s) ==> Sane(r) && s.distance + MinSpeed <= r.distance
  {
    var m := Moved(s, compass);
    m.(alive := !Collides(m.corners, border), radars := Sweep(m.center, m.angle, border, compass))
  }

  /**
   * Where an update puts the car: one step of its (new) speed along its
   * heading, each coordinate then clamped to [EdgeMargin, Width].
   */
  lemma UpdatedMovesAlongHeading(s: CarState, border: Mask, compass: Compass)
    ensures var r := Updated(s, border, compass);
      r.position == Vec(
        Clamp(s.position.x + Scale(Dir(compass, s.angle).x, r.speed)),
        Clamp(s.position.y + Scale(Dir(compass, s.angle).y, r.speed)))
  {
  }

  /** The fitness a car earns in one tick: its distance over RewardScale. */
  function Reward(s: CarState): (r: real)
    ensures r * RewardScale == s.distance as real
    ensures 0 <= s.distance ==> 0.0 <= r
  {
    s.distance as real / RewardScale
  }

  /**
   * The vertical clamp admits positions below the bottom of the track
   * image: a car heading straight down near the bottom edge ends up at
   * y == Width, beyond Height.
   */
  lemma VerticalClampPassesHeight(s: CarState, border: Mask, compass: Compass)
    requires s.speedSet && s.speed == InitialSpeed
    requires s.position.y == Width as real - 10.0
    requires Dir(compass, s.angle) == Vec(0.0, 1.0)
    ensures Updated(s, border, compass).position.y == Width as real
    ensures Updated(s, border, compass).position.y > Height as real
  {
  }

  class Car {
    var position: Vec
    var angle: int
    var speed: int
    var speedSet: bool
    var center: Pixel
    var radars: seq<Radar>
    var alive: bool
    var distance: int
    var time: int
    var corners: seq<Vec>

    /** The current values of all the fields, as one value. */
    function State(): CarState
      reads this
    {
      CarState(position, angle, speed, speedSet, center, radars, alive, distance, time, corners)
    }

    constructor ()
      ensures State() == Initial()
    {
      position := StartPosition;
      angle := 0;
      speed := 0;
      speedSet := false;
      center := CenterOf(StartPosition);
      radars := [];
      alive := true;
      distance := 0;
      time := 0;
      corners := [];
    }

    /** Applies one action to the heading or the speed. */
    method Steer(a: Action)
      modifies this`angle, this`speed
      ensures State() == Steered(old(State()), a)
    {
      if a == TurnLeft {
        angle := angle + TurnStep;
      } else if a == TurnRight {
        angle := angle - TurnStep;
      } else if a == SlowDown {
        if speed - SpeedStep >= MinSpeed {
          speed := speed - SpeedStep;
        }
      } else {
        speed := speed + SpeedStep;
      }
    }

    /**
     * Sets `alive` to true, then to false at the first corner that lies on
     * a border pixel.
     */
    method CheckCollision(border: Mask)
      modifies this`alive
      ensures alive <==> !Collides(corners, border)
    {
      alive := true;
      var k := 0;
      while k < |corners|
        invariant 0 <= k <= |corners|
        invariant alive
        invariant forall m :: 0 <= m < k ==> TruncPixel(corners[m]) !in border
      {
        if TruncPixel(corners[k]) in border {
          alive := false;
          break;
        }
        k := k + 1;
      }
    }

    /**
     * Casts one radar ray at `degree` from the heading, one pixel step at a
     * time until it meets a border or reaches MaxRange, and appends the
     * reading.
     */
    method CheckRadar(degree: int, border: Mask, compass: Compass)
      modifies this`radars
      ensures radars == old(radars) + [Reading(center, angle + degree, border, compass)]
    {
      var origin, heading := center, angle + degree;
      var length: nat := 0;
      var hit := RayPixel(origin, heading, compass, length);
      while hit !in border && length < MaxRange
        invariant length <= MaxRange
        invariant hit == RayPixel(origin, heading, compass, length)
        invariant RayLength(origin, heading, border, compass, length)
               == RayLength(origin, heading, border, compass, 0)
        decreases MaxRange - length
      {
        length := length + 1;
        hit := RayPixel(origin, heading, compass, length);
      }
      var dist := Distance(origin, hit);
      assert Radar(hit, dist) == Reading(origin, heading, border, compass);
      radars := radars + [Radar(hit, dist)];
    }

    /** One tick of the car's own motion, collision test and sensing. */
    method Update(border: Mask, compass: Compass)
      modifies this
      ensures State() == Updated(old(State()), border, compass)
    {
      Move(compass);
      CheckCollision(border);
      ScanRadars(border, compass);
    }

    /**
     * The motion part of Update, in the order the fields are written: the
     * speed, the horizontal coordinate, distance and time, the vertical
     * coordinate, then the centre and the corners.
     */
    method Move(compass: Compass)
      modifies this`speed, this`speedSet, this`position, this`distance, this`time, this`center, this`corners
      ensures State() == Moved(old(State()), compass)
    {
      ghost var target := Moved(State(), compass);
      if !speedSet {
        speed := InitialSpeed;
        speedSet := true;
      }
      var dir := Dir(compass, angle);
      position := position.(x := position.x + Scale(dir.x, speed));
      position := position.(x := MaxReal(position.x, EdgeMargin));
      position := position.(x := MinReal(position.x, Width as real));
      distance := distance + speed;
      time := time + 1;
      position := position.(y := position.y + Scale(dir.y, speed));
      position := position.(y := MaxReal(position.y, EdgeMargin));
      position := position.(y := MinReal(position.y, Width as real));
      assert position == target.position;
      center := CenterOf(position);
      corners := Corners(center, angle, compass);
    }

    /**
     * Clears the readings and casts the five radars, at RadarOffsets from
     * the heading, in that order.
     */
    method ScanRadars(border: Mask, compass: Compass)
      modifies this`radars
      ensures radars == Sweep(center, angle, border, compass)
    {
      ghost var c, a := center, angle;
      ghost var sweep := Sweep(c, a, border, compass);
      SweepReadings(c, a, border, compass);
      radars := [];
      for k := 0 to |RadarOffsets|
        invariant radars == sweep[..k]
      {
        ghost var reading := Reading(c, a + RadarOffsets[k], border, compass);
        assert sweep[..k + 1] == sweep[..k] + [reading];
        CheckRadar(RadarOffsets[k], border, compass);
      }
      assert sweep[..|RadarOffsets|] == sweep;
    }
  }
}
