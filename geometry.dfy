/** World constants, points, distances and angles shared by the grid, the player and the rays. */
module Geometry {

  const TILE_SIZE: real := 48.0
  const MAP_NUM_ROWS: nat := 11
  const MAP_NUM_COLS: nat := 15

  const WINDOW_WIDTH: real := MAP_NUM_COLS as real * TILE_SIZE
  const WINDOW_HEIGHT: real := MAP_NUM_ROWS as real * TILE_SIZE

  /** JavaScript's `Math.PI`, written as the shortest decimal that reads back as that double (the double itself is a little below it). */
  const PI: real := 3.141592653589793
  const TWO_PI: real := 2.0 * PI

  const FOV_ANGLE: real := 60.0 * (PI / 180.0)

  /** One ray per one-pixel wall strip: WINDOW_WIDTH / WALL_STRIP_WIDTH, that is 15 * 48 / 1. */
  const NUM_RAYS: nat := MAP_NUM_COLS * 48

  datatype Point = Point(x: real, y: real)

  /** The values of `Math.sin`, `Math.cos` and `Math.tan`, which the model does not compute. */
  datatype Trig = Trig(sin: real -> real, cos: real -> real, tan: real -> real)

  /** The closed window `[0, WINDOW_WIDTH] x [0, WINDOW_HEIGHT]` that bounds both the grid lookup and the marches. */
  predicate InWindow(p: Point) {
    0.0 <= p.x <= WINDOW_WIDTH && 0.0 <= p.y <= WINDOW_HEIGHT
  }

  function Abs(r: real): (a: real)
    ensures a >= 0.0 && (a == r || a == -r)
  {
    if r < 0.0 then -r else r
  }

  /** `distanceBetweenPoints` without its final square root. */
  function SquaredDistance(o: Point, t: Point): (d: real)
    ensures d >= 0.0
  {
    var dx, dy := t.x - o.x, t.y - o.y;
    SquareNonNegative(dx);
    SquareNonNegative(dy);
    dx * dx + dy * dy
  }

  lemma SquareNonNegative(a: real)
    ensures a * a >= 0.0
  {
    if a < 0.0 {
      assert a * a == (-a) * (-a);
    }
  }

  lemma ProductPositive(a: real, b: real)
    requires a > 0.0 && b > 0.0
    ensures a * b > 0.0
  {
  }

  /** Rounds toward zero, as JavaScript's `%` does with its quotient. */
  function Trunc(r: real): (n: int)
    ensures r >= 0.0 ==> n as real <= r < n as real + 1.0
    ensures r < 0.0 ==> n as real - 1.0 < r <= n as real
  {
    if r >= 0.0 then r.Floor else -((-r).Floor)
  }

  /** JavaScript's `a % (2 * Math.PI)`: the remainder takes the sign of the dividend. */
  function RemTwoPi(a: real): (r: real)
    ensures a >= 0.0 ==> 0.0 <= r < TWO_PI
    ensures a < 0.0 ==> -TWO_PI < r <= 0.0
  {
    a - Trunc(a / TWO_PI) as real * TWO_PI
  }

  /** `normalizeAngle`: brings an angle into `[0, 2 pi)`. */
  function NormalizeAngle(angle: real): (r: real)
    ensures 0.0 <= r < TWO_PI
  {
    var m := RemTwoPi(angle);
    if m < 0.0 then m + TWO_PI else m
  }

  /** The normalized angle differs from the input by a whole number of turns. */
  lemma NormalizeAngleTurns(angle: real) returns (k: int)
    ensures NormalizeAngle(angle) == angle + k as real * TWO_PI
  {
    var q := Trunc(angle / TWO_PI);
    k := if RemTwoPi(angle) < 0.0 then 1 - q else -q;
  }

  /** ... and it is the only value in `[0, 2 pi)` that does, so normalizing is idempotent. */
  lemma NormalizeAngleUnique(angle: real, b: real, k: int)
    requires 0.0 <= b < TWO_PI
    requires b == angle + k as real * TWO_PI
    ensures NormalizeAngle(angle) == b
  {
    var j := NormalizeAngleTurns(angle);
    var d := j - k;
    assert -TWO_PI < d as real * TWO_PI < TWO_PI;
  }

  lemma NormalizeAngleIdempotent(angle: real)
    ensures NormalizeAngle(NormalizeAngle(angle)) == NormalizeAngle(angle)
  {
  }

  /** `isFacingDown`: strictly between 0 and pi (screen y grows downwards). */
  predicate FacingDown(angle: real) {
    angle > 0.0 && angle < PI
  }

  /** `isFacingLeft`: strictly between pi/2 and 3 pi/2. */
  predicate FacingLeft(angle: real) {
    angle > PI / 2.0 && angle < PI * 1.5
  }

  /** A heading off the zero axis faces down exactly when the opposite heading, normalized, lies past pi (faces up). */
  lemma FacingDownOpposite(angle: real)
    requires 0.0 < angle < TWO_PI
    ensures FacingDown(angle) <==> NormalizeAngle(angle + PI) > PI
  {
    if angle < PI {
      NormalizeAngleUnique(angle + PI, angle + PI, 0);
    } else {
      NormalizeAngleUnique(angle + PI, angle - PI, -1);
    }
  }

  /** A heading faces left exactly when the heading a quarter turn back faces down. */
  lemma FacingLeftQuarterTurn(angle: real)
    ensures FacingLeft(angle) <==> FacingDown(angle - PI / 2.0)
  {
  }

  /** The four quadrants of a normalized angle off the axes, each with its own pair of facing flags. */
  lemma FacingQuadrants(angle: real)
    requires 0.0 <= angle < TWO_PI
    ensures FacingDown(angle) && !FacingLeft(angle) <==> 0.0 < angle <= PI / 2.0
    ensures FacingDown(angle) && FacingLeft(angle) <==> PI / 2.0 < angle < PI
    ensures !FacingDown(angle) && FacingLeft(angle) <==> PI <= angle < PI * 1.5
    ensures !FacingDown(angle) && !FacingLeft(angle) <==> angle == 0.0 || PI * 1.5 <= angle
  {
  }
}
