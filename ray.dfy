/** A ray from the player: its two grid-line marches and the choice of the nearer wall hit. */
module Rays {
  import opened Outcomes
  import opened Geometry
  import opened Grids
  import opened Players

  /** Where a march starts and how far it moves on each axis per probe. */
  datatype Plan = Plan(start: Point, xstep: real, ystep: real)

  /** One of the two steps is exactly one tile: that is what makes a march end. */
  predicate StepsOneTile(xstep: real, ystep: real) {
    ystep == TILE_SIZE || ystep == -TILE_SIZE || xstep == TILE_SIZE || xstep == -TILE_SIZE
  }

  /** The k-th probe of a march. */
  function Probe(start: Point, xstep: real, ystep: real, k: nat): Point {
    Point(start.x + k as real * xstep, start.y + k as real * ystep)
  }

  /** A probe through which the march goes on: inside the window and on open floor. */
  predicate Passes(g: Grid, p: Point) {
    InWindow(p) && g.Collides(p) == Ok(false)
  }

  /** Whole tiles left between the probe and the window edge the march heads for. */
  function TilesLeft(p: Point, xstep: real, ystep: real): int {
    if ystep == TILE_SIZE then ((WINDOW_HEIGHT - p.y) / TILE_SIZE).Floor
    else if ystep == -TILE_SIZE then (p.y / TILE_SIZE).Floor
    else if xstep == TILE_SIZE then ((WINDOW_WIDTH - p.x) / TILE_SIZE).Floor
    else (p.x / TILE_SIZE).Floor
  }

  lemma TilesLeftShrinks(p: Point, xstep: real, ystep: real)
    requires StepsOneTile(xstep, ystep) && InWindow(p)
    ensures 0 <= TilesLeft(p, xstep, ystep)
    ensures TilesLeft(Point(p.x + xstep, p.y + ystep), xstep, ystep) == TilesLeft(p, xstep, ystep) - 1
  {
  }

  /** No march has more grid lines ahead of it than the map has rows (stepping along y) or columns (along x). */
  lemma TilesLeftAtMost(p: Point, xstep: real, ystep: real)
    requires InWindow(p)
    ensures TilesLeft(p, xstep, ystep) <= if ystep == TILE_SIZE || ystep == -TILE_SIZE then MAP_NUM_ROWS else MAP_NUM_COLS
  {
  }

  /**
   * The result of the march loop shared by both searches: the first probe that is outside
   * the closed window or in a wall, or the exception a lookup throws on the way.
   */
  function MarchResult(g: Grid, p: Point, xstep: real, ystep: real): (r: Result<Point>)
    requires StepsOneTile(xstep, ystep)
    ensures r.Ok? ==> !Passes(g, r.value)
    ensures r.Err? ==> r.error == RowOutOfRange
    decreases TilesLeft(p, xstep, ystep)
  {
    if !InWindow(p) then Ok(p)
    else
      match g.Collides(p)
      case Err(e) => Err(e)
      case Ok(wall) =>
        if wall then Ok(p)
        else
          TilesLeftShrinks(p, xstep, ystep);
          MarchResult(g, Point(p.x + xstep, p.y + ystep), xstep, ystep)
  }

  lemma ProbeShift(start: Point, xstep: real, ystep: real, j: nat)
    ensures Probe(Point(start.x + xstep, start.y + ystep), xstep, ystep, j) == Probe(start, xstep, ystep, j + 1)
  {
    assert (j + 1) as real * xstep == j as real * xstep + xstep;
    assert (j + 1) as real * ystep == j as real * ystep + ystep;
  }

  /**
   * The march stops at probe `k`: every earlier probe passed, probe `k` does not, and the
   * march returns probe `k`, or the exception its lookup throws. At most 12 horizontal grid
   * lines or 16 vertical grid lines are probed.
   */
  lemma {:induction false} MarchStopsAtFirstBlocked(g: Grid, start: Point, xstep: real, ystep: real) returns (k: nat)
    requires StepsOneTile(xstep, ystep)
    ensures forall j: nat :: j < k ==> Passes(g, Probe(start, xstep, ystep, j))
    ensures !Passes(g, Probe(start, xstep, ystep, k))
    ensures var q := Probe(start, xstep, ystep, k);
            MarchResult(g, start, xstep, ystep) == if InWindow(q) && g.Collides(q).Err? then Err(g.Collides(q).error) else Ok(q)
    ensures InWindow(start) ==> k <= TilesLeft(start, xstep, ystep) + 1
    decreases TilesLeft(start, xstep, ystep)
  {
    assert Probe(start, xstep, ystep, 0) == start;
    if !Passes(g, start) {
      k := 0;
    } else {

      var next := Point(start.x + xstep, start.y + ystep);
      TilesLeftShrinks(start, xstep, ystep);
      var k' := MarchStopsAtFirstBlocked(g, next, xstep, ystep);
      k := k' + 1;
      ProbeShift(start, xstep, ystep, k');
      assert k <= TilesLeft(start, xstep, ystep) + 1;
      forall j: nat | j < k
        ensures Passes(g, Probe(start, xstep, ystep, j))
      {
        if j > 0 {
          ProbeShift(start, xstep, ystep, j - 1);
        }
      }
    }
  }

  /**
   * However it starts, a march passes through at most 12 probes in a row when it steps
   * along y and at most 16 when it steps along x: so at most that many lookups precede the stop.
   */
  lemma PassingRunBounded(g: Grid, start: Point, xstep: real, ystep: real, k: nat)
    requires StepsOneTile(xstep, ystep)
    requires forall j: nat :: j < k ==> Passes(g, Probe(start, xstep, ystep, j))
    ensures k <= if ystep == TILE_SIZE || ystep == -TILE_SIZE then MAP_NUM_ROWS + 1 else MAP_NUM_COLS + 1
  {
    var n: nat := if ystep == TILE_SIZE || ystep == -TILE_SIZE then MAP_NUM_ROWS + 1 else MAP_NUM_COLS + 1;
    assert !InWindow(Probe(start, xstep, ystep, 0)) || !InWindow(Probe(start, xstep, ystep, n));
  }

  /** The loop of both searches, stepping probe by probe until it leaves the window or meets a wall. */
  method March(g: Grid, start: Point, xstep: real, ystep: real) returns (r: Result<Point>)
    requires StepsOneTile(xstep, ystep)
    ensures r == MarchResult(g, start, xstep, ystep)
  {
    var nextIntersectX, nextIntersectY := start.x, start.y;
    while nextIntersectX >= 0.0 && nextIntersectX <= WINDOW_WIDTH && nextIntersectY >= 0.0 && nextIntersectY <= WINDOW_HEIGHT
      invariant MarchResult(g, Point(nextIntersectX, nextIntersectY), xstep, ystep) == MarchResult(g, start, xstep, ystep)
      decreases TilesLeft(Point(nextIntersectX, nextIntersectY), xstep, ystep)
    {
      var hit := g.Collides(Point(nextIntersectX, nextIntersectY));
      if hit.Err? {
        return Err(hit.error);
      }
      if hit.value {
        break;
      }
      TilesLeftShrinks(Point(nextIntersectX, nextIntersectY), xstep, ystep);
      nextIntersectX := nextIntersectX + xstep;
      nextIntersectY := nextIntersectY + ystep;
    }
    r := Ok(Point(nextIntersectX, nextIntersectY));
  }

  /** A value on the 48-unit lattice of grid lines. */
  predicate OnLattice(v: real) {
    (v / TILE_SIZE).Floor as real * TILE_SIZE == v
  }

  /**
   * The start of the horizontal search: the nearest horizontal grid line in the ray's
   * vertical direction, probed one unit above the line when the ray faces up; one tile
   * down or up per probe, and the matching run along x.
   */
  function HorizontalPlan(pivot: Point, angle: real, tan: real): (p: Plan)
    requires tan != 0.0
    ensures var lineY := if FacingDown(angle) then p.start.y else p.start.y + 1.0;
            OnLattice(lineY) &&
            (FacingDown(angle) ==> pivot.y < lineY <= pivot.y + TILE_SIZE) &&
            (!FacingDown(angle) ==> lineY <= pivot.y < lineY + TILE_SIZE)
    ensures p.ystep == TILE_SIZE <==> FacingDown(angle)
    ensures p.ystep == -TILE_SIZE <==> !FacingDown(angle)
    ensures p.xstep < 0.0 <==> FacingLeft(angle)
    ensures StepsOneTile(p.xstep, p.ystep)
  {
    var yintercept := (pivot.y / TILE_SIZE).Floor as real * TILE_SIZE + (if FacingDown(angle) then TILE_SIZE else 0.0);
    var xintercept := pivot.x + (yintercept - pivot.y) / tan;
    var ystep := TILE_SIZE * (if FacingDown(angle) then 1.0 else -1.0);
    var xstep := Abs(TILE_SIZE / tan) * (if FacingLeft(angle) then -1.0 else 1.0);
    assert OnLattice(yintercept) by {
      var line := (pivot.y / TILE_SIZE).Floor + (if FacingDown(angle) then 1 else 0);
      assert yintercept == line as real * TILE_SIZE;
    }
    HorizontalStepRun(tan, FacingLeft(angle));
    Plan(Point(xintercept, if FacingDown(angle) then yintercept else yintercept - 1.0), xstep, ystep)
  }

  lemma HorizontalStepRun(tan: real, left: bool)
    requires tan != 0.0
    ensures var xstep := Abs(TILE_SIZE / tan) * (if left then -1.0 else 1.0);
            (xstep < 0.0 <==> left) && Abs(xstep * tan) == TILE_SIZE
  {
  }

  /** The first horizontal probe's x is on the ray's line at the start line, and a run of `xstep` rises one tile. */
  lemma HorizontalPlanOnRayLine(pivot: Point, angle: real, tan: real)
    requires tan != 0.0
    ensures var p := HorizontalPlan(pivot, angle, tan);
            OnRayLine(pivot, tan, Point(p.start.x, if FacingDown(angle) then p.start.y else p.start.y + 1.0)) &&
            Abs(p.xstep * tan) == TILE_SIZE
  {
    var yintercept := (pivot.y / TILE_SIZE).Floor as real * TILE_SIZE + (if FacingDown(angle) then TILE_SIZE else 0.0);
    assert ((yintercept - pivot.y) / tan) * tan == yintercept - pivot.y;
    HorizontalStepRun(tan, FacingLeft(angle));
  }

  /**
   * The start of the vertical search: the nearest vertical grid line in the ray's
   * horizontal direction, probed one unit left of the line when the ray faces left; one
   * tile left or right per probe, and the matching rise along y.
   */
  function VerticalPlan(pivot: Point, angle: real, tan: real): (p: Plan)
    ensures var lineX := if FacingLeft(angle) then p.start.x + 1.0 else p.start.x;
            OnLattice(lineX) &&
            (!FacingLeft(angle) ==> pivot.x < lineX <= pivot.x + TILE_SIZE) &&
            (FacingLeft(angle) ==> lineX <= pivot.x < lineX + TILE_SIZE)
    ensures p.xstep == -TILE_SIZE <==> FacingLeft(angle)
    ensures p.xstep == TILE_SIZE <==> !FacingLeft(angle)
    ensures tan != 0.0 ==> (p.ystep > 0.0 <==> FacingDown(angle))
    ensures p.ystep == Abs(TILE_SIZE * tan) || p.ystep == -Abs(TILE_SIZE * tan)
    ensures StepsOneTile(p.xstep, p.ystep)
  {
    var xintercept := (pivot.x / TILE_SIZE).Floor as real * TILE_SIZE + (if FacingLeft(angle) then 0.0 else TILE_SIZE);
    var yintercept := pivot.y + (xintercept - pivot.x) * tan;
    var xstep := TILE_SIZE * (if FacingLeft(angle) then -1.0 else 1.0);
    var ystep := Abs(TILE_SIZE * tan) * (if FacingDown(angle) then 1.0 else -1.0);
    assert OnLattice(xintercept) by {
      var line := (pivot.x / TILE_SIZE).Floor + (if FacingLeft(angle) then 0 else 1);
      assert xintercept == line as real * TILE_SIZE;
    }
    assert tan != 0.0 ==> Abs(TILE_SIZE * tan) > 0.0;
    Plan(Point(if FacingLeft(angle) then xintercept - 1.0 else xintercept, yintercept), xstep, ystep)
  }

  /** The first vertical probe's y is on the ray's line at the start line. */
  lemma VerticalPlanOnRayLine(pivot: Point, angle: real, tan: real)
    ensures var p := VerticalPlan(pivot, angle, tan);
            OnRayLine(pivot, tan, Point(if FacingLeft(angle) then p.start.x + 1.0 else p.start.x, p.start.y))
  {
  }

  /** What a search returns: a probe point, or, for the horizontal search of a ray with zero slope, a point at infinity (JavaScript divides by `tan(angle) == 0`), whose distance exceeds every finite one. */
  datatype Hit = At(p: Point) | Beyond

  /** `getHorizontalIntersection`: crossings of the horizontal grid lines. */
  function HorizontalSearch(g: Grid, pivot: Point, angle: real, tan: real): (r: Result<Hit>)
    ensures tan == 0.0 ==> r == Ok(Beyond)
    ensures tan != 0.0 ==> r.Ok? ==> r.value.At?
    ensures r.Ok? && r.value.At? ==> !Passes(g, r.value.p)
    ensures r.Err? ==> r.error == RowOutOfRange
  {
    if tan == 0.0 then Ok(Beyond)
    else
      var plan := HorizontalPlan(pivot, angle, tan);
      match MarchResult(g, plan.start, plan.xstep, plan.ystep)
      case Ok(q) => Ok(At(q))
      case Err(e) => Err(e)
  }

  /** `getVerticalIntersection`: crossings of the vertical grid lines. */
  function VerticalSearch(g: Grid, pivot: Point, angle: real, tan: real): (r: Result<Point>)
    ensures r.Ok? ==> !Passes(g, r.value)
    ensures r.Err? ==> r.error == RowOutOfRange
  {
    var plan := VerticalPlan(pivot, angle, tan);
    MarchResult(g, plan.start, plan.xstep, plan.ystep)
  }

  /** The point a ray settles on and its squared distance from the pivot. */
  datatype WallHit = WallHit(point: Point, squaredDistance: real)

  /**
   * The selection at the end of `cast`: the vertical hit replaces the horizontal one only
   * when it is strictly nearer, so the nearer hit wins and a tie goes to the horizontal one.
   */
  function Select(pivot: Point, h: Hit, v: Point): (w: WallHit)
    ensures w.squaredDistance == SquaredDistance(pivot, w.point) && w.squaredDistance >= 0.0
    ensures w.point == v || (h.At? && w.point == h.p)
    ensures w.squaredDistance <= SquaredDistance(pivot, v)
    ensures h.At? ==> w.squaredDistance <= SquaredDistance(pivot, h.p)
    ensures h.At? && SquaredDistance(pivot, h.p) <= SquaredDistance(pivot, v) ==> w.point == h.p
    ensures h.Beyond? ==> w.point == v
  {
    var vDist := SquaredDistance(pivot, v);
    match h
    case Beyond => WallHit(v, vDist)
    case At(p) =>
      var hDist := SquaredDistance(pivot, p);
      if hDist > vDist then WallHit(v, vDist) else WallHit(p, hDist)
  }

  /**
   * `cast`: the horizontal search, then the vertical one, then the selection. An exception
   * in the first search means the second never runs.
   */
  function CastResult(g: Grid, pivot: Point, angle: real, tan: real): (r: Result<WallHit>)
    ensures HorizontalSearch(g, pivot, angle, tan).Err? ==> r == Err(HorizontalSearch(g, pivot, angle, tan).error)
    ensures HorizontalSearch(g, pivot, angle, tan).Ok? && VerticalSearch(g, pivot, angle, tan).Err? ==>
              r == Err(VerticalSearch(g, pivot, angle, tan).error)
    ensures r.Ok? ==> r.value.squaredDistance >= 0.0
  {
    match HorizontalSearch(g, pivot, angle, tan)
    case Err(e) => Err(e)
    case Ok(h) =>
      match VerticalSearch(g, pivot, angle, tan)
      case Err(e) => Err(e)
      case Ok(v) => Ok(Select(pivot, h, v))
  }

  /** The nearer of the two searches is what `cast` keeps, with its own point. */
  lemma CastKeepsNearer(g: Grid, pivot: Point, angle: real, tan: real)
    requires CastResult(g, pivot, angle, tan).Ok?
    ensures var w := CastResult(g, pivot, angle, tan).value;
            var h := HorizontalSearch(g, pivot, angle, tan);
            var v := VerticalSearch(g, pivot, angle, tan);
            h.Ok? && v.Ok? &&
            w.squaredDistance == SquaredDistance(pivot, w.point) &&
            w.squaredDistance <= SquaredDistance(pivot, v.value) &&
            (h.value.At? ==> w.squaredDistance <= SquaredDistance(pivot, h.value.p)) &&
            (h.value.At? && SquaredDistance(pivot, h.value.p) <= SquaredDistance(pivot, v.value) ==> w.point == h.value.p) &&
            (w.point == v.value || (h.value.At? && w.point == h.value.p))
  {
  }

  /** `Math.tan(angle)` has the sign the facing flags say the ray's slope has (or is 0). */
  predicate TanAgrees(angle: real, tan: real) {
    tan == 0.0 || (tan > 0.0 <==> FacingDown(angle) != FacingLeft(angle))
  }

  /** The ray's line through the pivot: a run of `dx` goes with a rise of `dx * tan`. */
  predicate OnRayLine(pivot: Point, tan: real, q: Point) {
    (q.x - pivot.x) * tan == q.y - pivot.y
  }

  /** Stepping by a run and rise in the line's own slope keeps a point on the line. */
  lemma StepAlongRayLine(pivot: Point, tan: real, base: Point, xstep: real, ystep: real, k: nat)
    requires OnRayLine(pivot, tan, base)
    requires xstep * tan == ystep
    ensures OnRayLine(pivot, tan, Point(base.x + k as real * xstep, base.y + k as real * ystep))
  {
  }

  /** With an agreeing slope, the horizontal run per tile rises exactly one tile in the facing direction. */
  lemma HorizontalStepOnSlope(pivot: Point, angle: real, tan: real)
    requires tan != 0.0 && TanAgrees(angle, tan)
    ensures var plan := HorizontalPlan(pivot, angle, tan); plan.xstep * tan == plan.ystep
  {
    HorizontalPlanOnRayLine(pivot, angle, tan);
  }

  /** With an agreeing slope, the vertical rise per tile is what one tile of run gives in the facing direction. */
  lemma VerticalStepOnSlope(pivot: Point, angle: real, tan: real)
    requires TanAgrees(angle, tan)
    ensures var plan := VerticalPlan(pivot, angle, tan); plan.xstep * tan == plan.ystep
  {
  }

  /** A march whose steps follow the ray's slope, started `(dx, dy)` off the line, stops `(dx, dy)` off it. */
  lemma MarchStaysOnRayLine(g: Grid, pivot: Point, tan: real, start: Point, xstep: real, ystep: real, dx: real, dy: real, q: Point)
    requires StepsOneTile(xstep, ystep)
    requires OnRayLine(pivot, tan, Point(start.x + dx, start.y + dy))
    requires xstep * tan == ystep
    requires MarchResult(g, start, xstep, ystep) == Ok(q)
    ensures OnRayLine(pivot, tan, Point(q.x + dx, q.y + dy))
  {
    var k := MarchStopsAtFirstBlocked(g, start, xstep, ystep);
    StepAlongRayLine(pivot, tan, Point(start.x + dx, start.y + dy), xstep, ystep, k);
    assert Point(q.x + dx, q.y + dy) == Point(start.x + dx + k as real * xstep, start.y + dy + k as real * ystep);
  }

  /** A plan that steps along the ray's slope from a start `(dx, dy)` off the ray's line. */
  predicate FollowsRay(pivot: Point, tan: real, plan: Plan, dx: real, dy: real) {
    StepsOneTile(plan.xstep, plan.ystep) && plan.xstep * tan == plan.ystep &&
    OnRayLine(pivot, tan, Point(plan.start.x + dx, plan.start.y + dy))
  }

  /** The march of such a plan stops `(dx, dy)` off the line, at `(x - dx, y - dy)`. */
  lemma MarchEndsOnRayLine(g: Grid, pivot: Point, tan: real, plan: Plan, dx: real, dy: real, q: Point, x: real, y: real)
    requires FollowsRay(pivot, tan, plan, dx, dy)
    requires MarchResult(g, plan.start, plan.xstep, plan.ystep) == Ok(q)
    requires x == q.x + dx && y == q.y + dy
    ensures OnRayLine(pivot, tan, Point(x, y))
  {
    MarchStaysOnRayLine(g, pivot, tan, plan.start, plan.xstep, plan.ystep, dx, dy, q);
    assert Point(x, y) == Point(q.x + dx, q.y + dy);
  }

  /**
   * When the slope agrees with the facing flags, each horizontal probe lies on the ray's
   * line, the probes of a ray facing up being one unit above it; so does the hit.
   */
  lemma HorizontalHitOnRayLine(g: Grid, pivot: Point, angle: real, tan: real)
    requires TanAgrees(angle, tan)
    requires HorizontalSearch(g, pivot, angle, tan).Ok?
    requires HorizontalSearch(g, pivot, angle, tan).value.At?
    ensures var q := HorizontalSearch(g, pivot, angle, tan).value.p;
            OnRayLine(pivot, tan, Point(q.x, if FacingDown(angle) then q.y else q.y + 1.0))
  {
    var plan := HorizontalPlan(pivot, angle, tan);
    HorizontalHitAt(g, pivot, angle, tan, plan, HorizontalSearch(g, pivot, angle, tan).value.p);
  }

  /** `HorizontalHitOnRayLine` for the march of a named plan that stops at a named hit `q`. */
  lemma HorizontalHitAt(g: Grid, pivot: Point, angle: real, tan: real, plan: Plan, q: Point)
    requires tan != 0.0 && TanAgrees(angle, tan)
    requires plan == HorizontalPlan(pivot, angle, tan)
    requires MarchResult(g, plan.start, plan.xstep, plan.ystep) == Ok(q)
    ensures OnRayLine(pivot, tan, Point(q.x, if FacingDown(angle) then q.y else q.y + 1.0))
  {
    var dy := HorizontalStart(pivot, angle, tan);
    MarchEndsOnRayLine(g, pivot, tan, plan, 0.0, dy, q, q.x, if FacingDown(angle) then q.y else q.y + 1.0);
  }

  /** The horizontal plan of an agreeing slope starts `dy` off the ray's line (one unit above it facing up) and steps along the slope. */
  lemma HorizontalStart(pivot: Point, angle: real, tan: real) returns (dy: real)
    requires tan != 0.0 && TanAgrees(angle, tan)
    ensures dy == if FacingDown(angle) then 0.0 else 1.0
    ensures FollowsRay(pivot, tan, HorizontalPlan(pivot, angle, tan), 0.0, dy)
  {
    var plan := HorizontalPlan(pivot, angle, tan);
    dy := if FacingDown(angle) then 0.0 else 1.0;
    HorizontalPlanOnRayLine(pivot, angle, tan);
    assert Point(plan.start.x, if FacingDown(angle) then plan.start.y else plan.start.y + 1.0) == Point(plan.start.x + 0.0, plan.start.y + dy);
    HorizontalStepOnSlope(pivot, angle, tan);
  }

  /**
   * When the slope agrees with the facing flags, each vertical probe lies on the ray's
   * line, the probes of a ray facing left being one unit left of it; so does the hit.
   */
  lemma VerticalHitOnRayLine(g: Grid, pivot: Point, angle: real, tan: real)
    requires TanAgrees(angle, tan)
    requires VerticalSearch(g, pivot, angle, tan).Ok?
    ensures var q := VerticalSearch(g, pivot, angle, tan).value;
            OnRayLine(pivot, tan, Point(if FacingLeft(angle) then q.x + 1.0 else q.x, q.y))
  {
    var plan := VerticalPlan(pivot, angle, tan);
    VerticalHitAt(g, pivot, angle, tan, plan, VerticalSearch(g, pivot, angle, tan).value);
  }

  /** `VerticalHitOnRayLine` for the march of a named plan that stops at a named hit `q`. */
  lemma VerticalHitAt(g: Grid, pivot: Point, angle: real, tan: real, plan: Plan, q: Point)
    requires TanAgrees(angle, tan)
    requires plan == VerticalPlan(pivot, angle, tan)
    requires MarchResult(g, plan.start, plan.xstep, plan.ystep) == Ok(q)
    ensures OnRayLine(pivot, tan, Point(if FacingLeft(angle) then q.x + 1.0 else q.x, q.y))
  {
    var dx := VerticalStart(pivot, angle, tan);
    MarchEndsOnRayLine(g, pivot, tan, plan, dx, 0.0, q, if FacingLeft(angle) then q.x + 1.0 else q.x, q.y);
  }

  /** The vertical plan of an agreeing slope starts `dx` off the ray's line (one unit left of it facing left) and steps along the slope. */
  lemma VerticalStart(pivot: Point, angle: real, tan: real) returns (dx: real)
    requires TanAgrees(angle, tan)
    ensures dx == if FacingLeft(angle) then 1.0 else 0.0
    ensures FollowsRay(pivot, tan, VerticalPlan(pivot, angle, tan), dx, 0.0)
  {
    var plan := VerticalPlan(pivot, angle, tan);
    dx := if FacingLeft(angle) then 1.0 else 0.0;
    VerticalPlanOnRayLine(pivot, angle, tan);
    assert Point(if FacingLeft(angle) then plan.start.x + 1.0 else plan.start.x, plan.start.y) == Point(plan.start.x + dx, plan.start.y + 0.0);
    VerticalStepOnSlope(pivot, angle, tan);
  }

  /**
   * From the player's start (360, 264), the middle of the open cell at row 5, column 7, a
   * ray at angle 0 (`tan` 0) has no horizontal crossing, and its vertical search stops at
   * once on the wall of column 8: the hit is half a tile away.
   */
  lemma StartRayEastHitsWall()
    ensures CastResult(STANDARD_GRID, Point(360.0, 264.0), 0.0, 0.0) == Ok(WallHit(Point(384.0, 264.0), 576.0))
  {
    var plan := VerticalPlan(Point(360.0, 264.0), 0.0, 0.0);
    assert plan == Plan(Point(384.0, 264.0), 48.0, 0.0);
    assert STANDARD_GRID.Collides(Point(384.0, 264.0)) == Ok(true);
    assert VerticalSearch(STANDARD_GRID, Point(360.0, 264.0), 0.0, 0.0) == Ok(Point(384.0, 264.0));
  }

  /**
   * From (72, 456), the middle of the open cell at row 9, column 1, a ray with slope 3 down
   * and to the right crosses the horizontal grid line y = 480 first, at (80, 480), which is in
   * a wall. Its vertical search starts at (96, 528) on the window's bottom edge, and looking
   * that point up reads row 11, which the map does not have: the whole cast throws, although
   * the horizontal hit is the nearer one.
   */
  lemma BottomEdgeProbeThrows(angle: real)
    requires 0.0 < angle < PI / 2.0
    ensures CastResult(STANDARD_GRID, Point(72.0, 456.0), angle, 3.0) == Err(RowOutOfRange)
  {
    var pivot := Point(72.0, 456.0);
    assert FacingDown(angle) && !FacingLeft(angle);
    var hplan := HorizontalPlan(pivot, angle, 3.0);
    assert hplan == Plan(Point(80.0, 480.0), 16.0, 48.0);
    BorderPointsCollide(Point(80.0, 480.0));
    assert MarchResult(STANDARD_GRID, Point(80.0, 480.0), 16.0, 48.0) == Ok(Point(80.0, 480.0));
    assert HorizontalSearch(STANDARD_GRID, pivot, angle, 3.0) == Ok(At(Point(80.0, 480.0)));
    var vplan := VerticalPlan(pivot, angle, 3.0);
    assert vplan == Plan(Point(96.0, 528.0), 48.0, 144.0);
    StandardGridEdges(Point(96.0, 528.0));
    assert MarchResult(STANDARD_GRID, Point(96.0, 528.0), 48.0, 144.0) == Err(RowOutOfRange);
  }

  /**
   * One ray of the sweep. `squaredDistance` holds the square of the source's `distance`
   * (the model has no square root); it orders hits the same way.
   */
  class Ray {
    const pivot: Player
    const angle: real
    const isFacingDown: bool
    const isFacingLeft: bool
    var wallHitX: real
    var wallHitY: real
    var squaredDistance: real

    /** The angle is normalized and the two flags are the ones it determines. */
    predicate Valid() {
      0.0 <= angle < TWO_PI && isFacingDown == FacingDown(angle) && isFacingLeft == FacingLeft(angle)
    }

    /** The pivot's position now: the ray holds a reference to the player, not a copy. */
    function Origin(): Point
      reads pivot
    {
      Point(pivot.x, pivot.y)
    }

    /** The wall hit `cast` has stored. */
    function Stored(): WallHit
      reads this
    {
      WallHit(Point(wallHitX, wallHitY), squaredDistance)
    }

    /** The stored hit is the one casting from the pivot's current position gives. */
    predicate Resolved(g: Grid, trig: Trig)
      reads this, pivot
    {
      Valid() && CastResult(g, Origin(), angle, trig.tan(angle)) == Ok(Stored())
    }

    constructor (pivot: Player, angle: real)
      ensures Valid()
      ensures this.pivot == pivot && this.angle == NormalizeAngle(angle)
      ensures wallHitX == 0.0 && wallHitY == 0.0 && squaredDistance == 0.0
    {
      this.pivot := pivot;
      var a := NormalizeAngle(angle);
      this.angle := a;
      isFacingDown := a > 0.0 && a < PI;
      isFacingLeft := a > PI / 2.0 && a < PI * 1.5;
      wallHitX, wallHitY, squaredDistance := 0.0, 0.0, 0.0;
    }

    method HorizontalIntersection(g: Grid, tan: real) returns (r: Result<Hit>)
      requires Valid()
      ensures r == HorizontalSearch(g, Origin(), angle, tan)
    {
      if tan == 0.0 {
        return Ok(Beyond);
      }
      var yintercept := (pivot.y / TILE_SIZE).Floor as real * TILE_SIZE;
      yintercept := yintercept + (if isFacingDown then TILE_SIZE else 0.0);
      var xintercept := pivot.x + (yintercept - pivot.y) / tan;
      var ystep := TILE_SIZE * (if isFacingDown then 1.0 else -1.0);
      var xstep := Abs(TILE_SIZE / tan) * (if isFacingLeft then -1.0 else 1.0);
      var nextIntersectX, nextIntersectY := xintercept, yintercept;
      if !isFacingDown {
        nextIntersectY := nextIntersectY - 1.0;
      }
      assert Plan(Point(nextIntersectX, nextIntersectY), xstep, ystep) == HorizontalPlan(Origin(), angle, tan);
      var hit := March(g, Point(nextIntersectX, nextIntersectY), xstep, ystep);
      match hit
      case Ok(q) => r := Ok(At(q));
      case Err(e) => r := Err(e);
    }

    method VerticalIntersection(g: Grid, tan: real) returns (r: Result<Point>)
      requires Valid()
      ensures r == VerticalSearch(g, Origin(), angle, tan)
    {
      var xintercept := (pivot.x / TILE_SIZE).Floor as real * TILE_SIZE;
      xintercept := xintercept + (if isFacingLeft then 0.0 else TILE_SIZE);
      var yintercept := pivot.y + (xintercept - pivot.x) * tan;
      var xstep := TILE_SIZE * (if isFacingLeft then -1.0 else 1.0);
      var ystep := Abs(TILE_SIZE * tan) * (if isFacingDown then 1.0 else -1.0);
      var nextIntersectX, nextIntersectY := xintercept, yintercept;
      if isFacingLeft {
        nextIntersectX := nextIntersectX - 1.0;
      }
      assert Plan(Point(nextIntersectX, nextIntersectY), xstep, ystep) == VerticalPlan(Origin(), angle, tan);
      r := March(g, Point(nextIntersectX, nextIntersectY), xstep, ystep);
    }

    /**
     * `cast`: runs both searches and stores the nearer hit. An exception from either search
     * leaves the stored hit as it was.
     */
    method Cast(g: Grid, trig: Trig) returns (outcome: Outcome)
      requires Valid()
      modifies this
      ensures outcome.Pass? <==> Resolved(g, trig)
      ensures outcome.Fail? ==> CastResult(g, Origin(), angle, trig.tan(angle)) == Err(outcome.error)
      ensures outcome.Fail? ==> Stored() == old(Stored())
    {
      var tan := trig.tan(angle);
      var hRes := HorizontalIntersection(g, tan);
      if hRes.Err? {
        return Fail(hRes.error);
      }
      var vRes := VerticalIntersection(g, tan);
      if vRes.Err? {
        return Fail(vRes.error);
      }
      var v := vRes.value;
      var vDist := SquaredDistance(Origin(), v);
      match hRes.value {
        case Beyond =>
          wallHitX, wallHitY, squaredDistance := v.x, v.y, vDist;
        case At(h) =>
          var hDist := SquaredDistance(Origin(), h);
          wallHitX := if hDist > vDist then v.x else h.x;
          wallHitY := if hDist > vDist then v.y else h.y;
          squaredDistance := if hDist > vDist then vDist else hDist;
      }
      outcome := Pass;
    }
  }
}
