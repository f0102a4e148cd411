/**
 * The car's view of the track: the five radar rays cast pixel by pixel
 * against the track mask, the corner test that decides a crash, and the
 * quantisation of the radar distances into the controller's inputs.
 */
module Sensors {
  import opened Geometry

  /** A radar ray stops after this many unit steps if it meets no border. */
  const MaxRange: nat := 300

  /** Radar distances are divided by this before they reach the controller. */
  const SensorScale: nat := 30

  /** The radar directions relative to the heading: range(-90, 120, 45). */
  const RadarOffsets: seq<int> := [-90, -45, 0, 45, 90]

  /** The directions of the four corners relative to the heading. */
  const CornerOffsets: seq<int> := [30, 150, 210, 330]

  /** Distance from the centre to each corner: half the car's 60-pixel side. */
  const CornerRadius: int := 30

  /** One radar reading: the pixel where the ray stopped and its distance. */
  datatype Radar = Radar(hit: Pixel, dist: nat)

  /** The pixel a ray from `center` along `heading` samples at step `length`. */
  function RayPixel(center: Pixel, heading: int, compass: Compass, length: nat): (p: Pixel)
  {
    TruncPixel(Along(AsVec(center), Dir(compass, heading), length))
  }

  /**
   * The step at which a ray that has reached step `length` stops: the first
   * step at or after `length` whose pixel is a border, or MaxRange if there
   * is none before it.
   */
  function RayLength(center: Pixel, heading: int, border: Mask, compass: Compass, length: nat): (n: nat)
    requires length <= MaxRange
    ensures length <= n <= MaxRange
    ensures n < MaxRange ==> RayPixel(center, heading, compass, n) in border
    ensures forall k :: length <= k < n ==> RayPixel(center, heading, compass, k) !in border
    decreases MaxRange - length
  {
    if RayPixel(center, heading, compass, length) in border || length >= MaxRange then length
    else RayLength(center, heading, border, compass, length + 1)
  }

  /** The integer distance between the centre and a pixel, int(sqrt(dx² + dy²)). */
  function Distance(center: Pixel, p: Pixel): (d: nat)
  {
    FloorSqrt(Square(p.x - center.x) + Square(p.y - center.y))
  }

  /** The reading of the radar that looks along `heading` from `center`. */
  function Reading(center: Pixel, heading: int, border: Mask, compass: Compass): (r: Radar)
  {
    var hit := RayPixel(center, heading, compass, RayLength(center, heading, border, compass, 0));
    Radar(hit, Distance(center, hit))
  }

  /** The readings of all five radars of a car at `center` heading `angle`. */
  function Sweep(center: Pixel, angle: int, border: Mask, compass: Compass): (rs: seq<Radar>)
    ensures |rs| == |RadarOffsets|
  {
    seq(|RadarOffsets|, k requires 0 <= k < |RadarOffsets| =>
      Reading(center, angle + RadarOffsets[k], border, compass))
  }

  /** Reading `k` of a sweep is the radar at RadarOffsets[k] from the heading. */
  lemma SweepReadings(center: Pixel, angle: int, border: Mask, compass: Compass)
    ensures forall k :: 0 <= k < |RadarOffsets| ==>
      Sweep(center, angle, border, compass)[k] == Reading(center, angle + RadarOffsets[k], border, compass)
  {
  }

  /** The four corners of a car at `center` heading `angle`. */
  function Corners(center: Pixel, angle: int, compass: Compass): (cs: seq<Vec>)
    ensures |cs| == |CornerOffsets|
  {
    seq(|CornerOffsets|, k requires 0 <= k < |CornerOffsets| =>
      Along(AsVec(center), Dir(compass, angle + CornerOffsets[k]), CornerRadius))
  }

  /** Some corner lies on a border pixel once its coordinates are truncated. */
  predicate Collides(corners: seq<Vec>, border: Mask)
  {
    exists k :: 0 <= k < |corners| && TruncPixel(corners[k]) in border
  }

  /**
   * The controller's input: five slots, slot i holding radar i's distance
   * in units of SensorScale (rounded down), and 0 where there is no reading.
   */
  function SensorData(radars: seq<Radar>): (data: seq<int>)
    requires |radars| <= |RadarOffsets|
    ensures |data| == |RadarOffsets|
    ensures forall i :: 0 <= i < |data| ==> 0 <= data[i]
    ensures forall i :: 0 <= i < |radars| ==>
      data[i] * SensorScale <= radars[i].dist < (data[i] + 1) * SensorScale
    ensures forall i :: |radars| <= i < |data| ==> data[i] == 0
  {
    seq(|RadarOffsets|, i requires 0 <= i < |RadarOffsets| =>
      if i < |radars| then radars[i].dist / SensorScale else 0)
  }

  /**
   * The ray length is exactly the first step whose pixel is a border, or
   * MaxRange when no step before it hits one.
   */
  lemma RayStopsAtFirstBorder(center: Pixel, heading: int, border: Mask, compass: Compass, n: nat)
    ensures n == RayLength(center, heading, border, compass, 0) <==>
      && n <= MaxRange
      && (n < MaxRange ==> RayPixel(center, heading, compass, n) in border)
      && forall k :: 0 <= k < n ==> RayPixel(center, heading, compass, k) !in border
  {
    var m := RayLength(center, heading, border, compass, 0);
    assert n < m ==> RayPixel(center, heading, compass, n) !in border;
    assert m < n && m < MaxRange ==> RayPixel(center, heading, compass, m) in border;
  }

  /**
   * The distance from the centre to a pixel is the integer part of the
   * Euclidean distance: the largest d with d * d <= dx * dx + dy * dy.
   */
  lemma DistanceIsFloorOfEuclidean(center: Pixel, p: Pixel)
    ensures var d, dx, dy := Distance(center, p), p.x - center.x, p.y - center.y;
      d * d <= dx * dx + dy * dy < (d + 1) * (d + 1)
  {
    SquareIsProduct(p.x - center.x);
    SquareIsProduct(p.y - center.y);
    FloorSqrtIsRoot(Square(p.x - center.x) + Square(p.y - center.y));
  }

  /** On a track without border pixels every ray runs its full range. */
  lemma OpenTrackRayRunsFullRange(center: Pixel, heading: int, border: Mask, compass: Compass)
    requires border == {}
    ensures RayLength(center, heading, border, compass, 0) == MaxRange
    ensures Reading(center, heading, border, compass).hit == RayPixel(center, heading, compass, MaxRange)
  {
  }
}
