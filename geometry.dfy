/**
 * Plane geometry shared by the car model: points with real coordinates,
 * pixels with integer coordinates, the truncation that turns one into the
 * other, the track mask and the trigonometry the car uses, and the integer
 * square root behind every sensor distance.
 */
module Geometry {

  /** A point of the screen plane (x to the right, y downwards). */
  datatype Vec = Vec(x: real, y: real)

  /** A pixel of the track image. */
  datatype Pixel = Pixel(x: int, y: int)

  /**
   * The track mask: the set of pixels that have the border colour
   * (255, 255, 255, 255). Every other pixel, including any outside the
   * image, counts as free track.
   */
  type Mask = set<Pixel>

  /** The number of whole degrees in a turn. */
  const FullTurn: nat := 360

  /**
   * The trigonometry the car uses, as a table: entry `a` stands for the unit
   * vector (cos(radians(360 - a)), sin(radians(360 - a))) of the heading of
   * `a` degrees. Headings are whole degrees, so 360 entries cover them all.
   * The table is a parameter of the model, not computed.
   */
  type Compass = t: seq<Vec> | |t| == FullTurn witness seq(FullTurn, _ => Vec(1.0, 0.0))

  /** The unit vector of a heading of `a` degrees, for any integer `a`. */
  function Dir(compass: Compass, a: int): (v: Vec)
  {
    compass[a % FullTurn]
  }

  /** The point reached from `origin` after `length` units along `dir`. */
  function Along(origin: Vec, dir: Vec, length: int): (p: Vec)
  {
    Vec(origin.x + Scale(dir.x, length), origin.y + Scale(dir.y, length))
  }

  /** A coordinate of a direction times a whole number of units. */
  function Scale(c: real, n: int): (r: real)
  {
    c * n as real
  }

  /** The centre of a pixel seen as a point (its own coordinates). */
  function AsVec(p: Pixel): (v: Vec)
  {
    Vec(p.x as real, p.y as real)
  }

  /**
   * Conversion of a real to an integer by truncation toward zero, as
   * `int(...)` does for a float.
   */
  function Trunc(r: real): (n: int)
    ensures 0.0 <= r ==> 0 <= n && n as real <= r < n as real + 1.0
    ensures r < 0.0 ==> n <= 0 && n as real - 1.0 < r <= n as real
  {
    if r >= 0.0 then r.Floor else -((-r).Floor)
  }

  /** The pixel a point falls on once both coordinates are truncated. */
  function TruncPixel(v: Vec): (p: Pixel)
  {
    Pixel(Trunc(v.x), Trunc(v.y))
  }

  /**
   * The integer square root: `int(sqrt(n))` for an integer `n`, found by
   * counting upward from 0. FloorSqrtIsRoot states what it computes.
   */
  function FloorSqrt(n: nat): (r: nat)
  {
    SqrtFrom(n, 0)
  }

  function SqrtFrom(n: nat, r: nat): (s: nat)
    decreases n - r
  {
    if Square(r + 1) > n then r
    else
      assert r + 1 <= n by { SquareIsProduct(r + 1); }
      SqrtFrom(n, r + 1)
  }

  /** Counting up from a root candidate `r` ends at the integer square root. */
  lemma {:induction false} SqrtFromIsRoot(n: nat, r: nat)
    requires Square(r) <= n
    ensures var s := SqrtFrom(n, r); r <= s && Square(s) <= n < Square(s + 1)
    decreases n - r
  {
    if Square(r + 1) <= n {
      SquareIsProduct(r + 1);
      SqrtFromIsRoot(n, r + 1);
    }
  }

  /** FloorSqrt(n) is the largest r with r * r <= n. */
  lemma FloorSqrtIsRoot(n: nat)
    ensures var r := FloorSqrt(n); r * r <= n < (r + 1) * (r + 1)
  {
    SqrtFromIsRoot(n, 0);
    SquareIsProduct(FloorSqrt(n));
    SquareIsProduct(FloorSqrt(n) + 1);
  }

  /** The larger of two reals, as `max` returns it. */
  function MaxReal(a: real, b: real): (m: real)
    ensures m >= a && m >= b && (m == a || m == b)
  {
    if a >= b then a else b
  }

  /** The smaller of two reals, as `min` returns it. */
  function MinReal(a: real, b: real): (m: real)
    ensures m <= a && m <= b && (m == a || m == b)
  {
    if a <= b then a else b
  }

  /**
   * The square d * d, written as a sum of odd numbers so that the solver
   * meets only linear arithmetic; SquareIsProduct proves the two equal.
   */
  function Square(d: int): (sq: nat)
    decreases if d < 0 then -d else d
  {
    if d == 0 then 0
    else if d > 0 then Square(d - 1) + 2 * d - 1
    else Square(d + 1) - 2 * d - 1
  }

  lemma {:induction false} SquareIsProduct(d: int)
    ensures Square(d) == d * d
    decreases if d < 0 then -d else d
  {
    if d > 0 {
      SquareIsProduct(d - 1);
    } else if d < 0 {
      SquareIsProduct(d + 1);
    }
  }
}
