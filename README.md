# Ray-casting engine of raycasting-js, modelled in Dafny

The model covers the engine of `raycast.js`, a "Wolfenstein-style" renderer on a tile grid.

- **Grid.** An 11 × 15 map of 48-unit tiles, with a point-in-wall query (`isCollides`).
  Everything outside the closed window `[0, 720] × [0, 528]` counts as wall.
- **Player.** Each frame it turns by its turn intent. It then steps along its heading by its walk intent, unless the grid says the new point is a wall.
- **Ray.** Its angle is normalized into `[0, 2π)` and split into facing flags (down, left). It marches two sets of probes along the grid lines:
  - the horizontal search steps ±48 in y;
  - the vertical search steps ±48 in x.
  The ray keeps the nearer of the two hits, and a tie goes to the horizontal hit.
- **Sweep.** `castAllRays` builds one ray per screen column (720 of them) across a 60° field of view, in column order.

Modules, one per part:

- `Outcomes` (outcomes.dfy): the `Result`/`Outcome` values that stand for the source's exceptions.
- `Geometry` (geometry.dfy): constants, points, squared distance, JavaScript's `%` and `normalizeAngle`, the facing flags.
- `Grids` (grid.dfy): the tile map and `isCollides`.
- `Players` (player.dfy): the `Player` class and `update`.
- `Rays` (ray.dfy): the shared march loop, the two searches, the selection, and the `Ray` class with `cast`.
- `Sweep` (sweep.dfy): the frame's globals (`grid`, `player`, `rays`) and `castAllRays`.

The model uses the source's own behaviour at two edges.

- The window test uses closed upper bounds. A point with `x == 720` therefore reads column 15, which does not exist; `undefined === 1` is false, so the point counts as open floor. A point with `y == 528` reads row 11, which does not exist; indexing `undefined` throws a TypeError. `Grid.Collides` reproduces both: `Ok(false)` and `Err(RowOutOfRange)`.
- An exception thrown by a lookup propagates. A lookup can throw inside a search, and so inside `cast` and `castAllRays`, or inside `Player.update`, through its own `isCollides` call. The model returns it as `Fail`:
  - a failed `cast` leaves the ray's stored hit unchanged;
  - a failed `castAllRays` leaves the rays already pushed;
  - a failed `Player.update` has already turned the player and has not moved it. (The frame function `update` runs `Player.update` before `castAllRays`, so when the sweep throws, the player has already moved.)
- A cast from an open cell can reach the bottom edge. From (72, 456), a ray with slope 3 down and to the right has its nearer hit at (80, 480), but its vertical search first probes (96, 528) and throws (`Rays.BottomEdgeProbeThrows`).

Numbers are Dafny `real`s, and `Math.PI` is the decimal `3.141592653589793`. `Math.sin`, `Math.cos` and `Math.tan` are not computed: their values come in as a `Trig` parameter of functions. The frame time `deltaTime` (milliseconds) is a parameter of `Update`. The two intents are parameters too, in `{-1, 0, 1}`. The `grid` global that `cast` reads is passed in as a `Grid` value. The player's `level` is an `Option<Grid>`, where `None` stands for `null`.

## Model

| member | source | states |
|---|---|---|
| `Geometry.SquaredDistance` | raycast.js:263-269 | the squared Euclidean distance between two points is never negative |
| `Geometry.RemTwoPi` | raycast.js:258 | JavaScript's `angle % (2π)` lies in `[0, 2π)` for a non-negative angle and in `(-2π, 0]` for a negative one; the quotient is truncated toward zero |
| `Geometry.NormalizeAngle` | raycast.js:257-261 | the normalized angle lies in `[0, 2π)` |
| `Geometry.NormalizeAngleTurns` | raycast.js:257-261 | the normalized angle differs from the input by a whole number of turns |
| `Geometry.NormalizeAngleUnique` | raycast.js:257-261 | the normalized angle is the only value in `[0, 2π)` a whole number of turns away from the input |
| `Geometry.NormalizeAngleIdempotent` | raycast.js:257-261 | normalizing twice gives the same angle as normalizing once |
| `Geometry.FacingDown` | raycast.js:127 | `isFacingDown`: the angle lies strictly between 0 and π (screen y grows downwards); a definition, whose meaning the two lemmas below and `FacingQuadrants` state |
| `Geometry.FacingLeft` | raycast.js:128 | `isFacingLeft`: the angle lies strictly between π/2 and 3π/2; a definition, like `FacingDown` |
| `Geometry.FacingDownOpposite` | raycast.js:127 | a heading off the zero axis faces down exactly when the opposite heading, normalized, lies past π (faces up) |
| `Geometry.FacingLeftQuarterTurn` | raycast.js:127-128 | a heading faces left exactly when the heading a quarter turn back faces down |
| `Geometry.FacingQuadrants` | raycast.js:127-128 | on a normalized angle the two strict facing tests split directions into four quadrants; the axis angles 0, π/2, π and 3π/2 fall on the sides the strict bounds give them |
| `Grids.Grid.Collides` | raycast.js:42-49 | any point outside the closed window is a wall; a lookup throws exactly when the point is inside the window and its row is past the last row; a point reported open that reads an existing cell reads a non-wall cell |
| `Grids.Grid.IsCollides` | raycast.js:37-50 | a missing object or a non-finite coordinate throws before anything else; otherwise the answer is the lookup on the point |
| `Grids.StandardGridShape` | raycast.js:23-35 | the map has 11 rows of 15 cells |
| `Grids.BorderIsWall` | raycast.js:23-35 | every cell of the top and bottom rows and of the leftmost and rightmost columns is a wall |
| `Grids.StandardGridLookup` | raycast.js:42-49 | for `0 ≤ x < 720` and `0 ≤ y < 528` the row and column are in range, and the query is true exactly when `map[floor(y/48)][floor(x/48)]` is 1 |
| `Grids.StandardGridEdges` | raycast.js:42-49 | the query throws exactly on the bottom edge `y == 528` inside the window; on the right edge `x == 720`, above the bottom edge, it answers open floor |
| `Grids.BorderPointsCollide` | raycast.js:23-49 | every point of the half-open window less than one tile from its left or top edge, or in its last tile before the right or bottom edge, is a wall |
| `Grids.StartCellOpen` | raycast.js:23-35 | the player's start point (360, 264) lies in row 5, column 7, an open cell |
| `Players.StepTarget` | raycast.js:86-88 | the candidate point stays put when the walk step or the time step is zero, and keeps its x (or its y) when the cosine (or the sine) is zero |
| `Players.Player.constructor` | raycast.js:67-81 | the player starts at (360, 264) facing π/2, moving at 40 and turning at π per second, on the given level; on the standard grid or on no level it starts clear of walls |
| `Players.Player.Update` | raycast.js:83-94 | the heading always becomes old + turn·rotationSpeed·dt; the candidate point is computed from the new heading; the position becomes the candidate when there is no level or the level finds no wall there, and stays put on a wall or when the lookup throws (the throw is the outcome); the position never changes when the walk intent is 0; a player clear of walls stays clear |
| `Rays.TilesLeftShrinks` | raycast.js:159-169 | inside the window the number of grid lines left ahead of a probe is never negative, and each step of ±48 on the stepping axis lowers it by one, so each march loop ends |
| `Rays.TilesLeftAtMost` | raycast.js:159-169 | inside the window at most 11 grid lines lie ahead on y and at most 15 on x |
| `Rays.MarchResult` | raycast.js:159-169 | the march loop's result blocks the ray: the probe it returns is outside the window or in a wall, and its only exception is a missing row |
| `Rays.MarchStopsAtFirstBlocked` | raycast.js:159-169 | a march stops at probe k = start + k·(xstep, ystep). Every earlier probe was inside the window and open; probe k is outside the window or not open. The result is probe k, or the exception its lookup throws. No step follows a wall hit |
| `Rays.PassingRunBounded` | raycast.js:159-169 | at most 12 consecutive probes stepping along y (16 along x) can be inside the window |
| `Rays.March` | raycast.js:159-169 | the `while` loop of both searches returns exactly the march result: the first blocked probe, or the exception |
| `Rays.HorizontalPlan` | raycast.js:140-157 | the start line is a multiple of 48. It lies below the pivot within one tile when the ray faces down, and at or above it within one tile when the ray faces up. The first probe is 1 unit above the line when facing up. `ystep` is +48 when facing down and −48 when facing up; `xstep` is negative exactly when facing left |
| `Rays.HorizontalPlanOnRayLine` | raycast.js:139-147 | the first horizontal probe's x is on the ray's line through the pivot at the start line, and the run `xstep` covers exactly one tile of rise (`abs(xstep·tan) == 48`) |
| `Rays.VerticalPlan` | raycast.js:180-197 | the mirror of the horizontal start: the start line is a multiple of 48, right of the pivot within one tile when facing right and at or left of it when facing left. The first probe is 1 unit left of the line when facing left. `xstep` is −48 exactly when facing left; `ystep` is ±|48·tan| and positive exactly when facing down (for a non-zero slope) |
| `Rays.VerticalPlanOnRayLine` | raycast.js:179-184 | the first vertical probe's y is on the ray's line through the pivot at the start line |
| `Rays.HorizontalSearch` | raycast.js:133-171 | with `tan == 0` the horizontal search has no finite result; otherwise a successful search returns a probe point, which is outside the window or in a wall; a failed search failed on a missing row |
| `Rays.VerticalSearch` | raycast.js:173-211 | the march from the vertical start: the probe it returns is outside the window or in a wall, and a failed search failed on a missing row |
| `Rays.Select` | raycast.js:213-221 | the kept hit is one of the two hits, with its own squared distance. That distance is at most both searches' distances. A tie, or a nearer horizontal hit, keeps the horizontal one. A horizontal search with no finite result loses |
| `Rays.CastResult` | raycast.js:213-216 | an exception in the horizontal search is the result of the cast; otherwise an exception in the vertical search is; a cast that succeeds has a non-negative distance |
| `Rays.CastKeepsNearer` | raycast.js:213-221 | a successful cast ran both searches and kept the nearer hit, with ties going to the horizontal hit |
| `Rays.HorizontalStepOnSlope` | raycast.js:147-148 | when the sign of `tan` agrees with the facing flags, the horizontal search's step lies along the ray's slope |
| `Rays.VerticalStepOnSlope` | raycast.js:187-188 | when the sign of `tan` agrees with the facing flags, the vertical search's step lies along the ray's slope |
| `Rays.MarchStaysOnRayLine` | raycast.js:159-169 | a march that steps along the ray's slope ends at the same offset from the ray's line as it started |
| `Rays.HorizontalHitOnRayLine` | raycast.js:140-169 | with an agreeing slope, the horizontal hit lies on the ray's line through the pivot, or 1 unit above it when the ray faces up |
| `Rays.VerticalHitOnRayLine` | raycast.js:180-209 | with an agreeing slope, the vertical hit lies on the ray's line through the pivot, or 1 unit left of it when the ray faces left |
| `Rays.StartRayEastHitsWall` | raycast.js:131-221 | from (360, 264) at angle 0 the cast hits the wall of column 8 at (384, 264), with squared distance 576 (half a tile) |
| `Rays.BottomEdgeProbeThrows` | raycast.js:173-216 | from (72, 456) in the open cell at row 9, column 1, a ray with slope 3 down and to the right throws: its vertical search first probes (96, 528) on the bottom edge, which reads row 11, although the horizontal hit (80, 480) is nearer |
| `Rays.Ray.constructor` | raycast.js:120-129 | the ray's angle is the normalized input angle; facing down means strictly between 0 and π; facing left means strictly between π/2 and 3π/2; the stored hit starts at 0 |
| `Rays.Ray.HorizontalIntersection` | raycast.js:133-171 | computes the horizontal search from the pivot's current position |
| `Rays.Ray.VerticalIntersection` | raycast.js:173-211 | computes the vertical search from the pivot's current position |
| `Rays.Ray.Cast` | raycast.js:131-223 | the cast succeeds exactly when the stored hit becomes the nearer hit of the two searches from the current pivot; when it fails the outcome is the cast's exception and the stored hit is unchanged |
| `Sweep.ColumnAngle` | raycast.js:274-282 | every column's angle lies in `[heading − FOV/2, heading + FOV/2)` |
| `Sweep.ColumnStep` | raycast.js:282 | neighbouring columns are FOV/720 apart |
| `Sweep.ColumnAnglesIncrease` | raycast.js:277-285 | later columns have strictly larger angles, so the fan is in screen order |
| `Sweep.Scene.constructor` | raycast.js:232-234 | the frame starts with the standard grid, a fresh player on that grid (clear of walls), and no rays |
| `Sweep.Scene.CastAllRays` | raycast.js:271-286 | `rays` becomes a list of distinct fresh rays in column order. Ray i is pivoted on the player, has the normalized angle of column i, and holds its own cast. On success the list has exactly 720 rays. On failure it holds the rays of the columns before the one whose cast threw, and the outcome is that cast's exception |

## Left out

- Drawing with p5.js (`Grid.render`, `Player.render`, `Ray.render`, `renderProjectedWalls`, `applyScaleFactor`, `setup`, `draw`, raycast.js:52-64, 96-107, 225-229, 236-255, 288-321): presentation calls into a library that is not part of this model. The per-frame driver `update()` (raycast.js:304-307) is only the call of `Player.update` followed by `castAllRays`, and both are modelled.
- Key handlers `keyPressed`/`keyReleased` (raycast.js:292-302): event glue over p5's key globals. The intents they set are the `turnDirection`/`walkDirection` parameters of `Update`, so `Player` has no fields for them. `radius` (render only) and the unused `columnId` of `cast` are not modelled.
- Floating-point behaviour: rounding, and the infinities and NaN of `Math.tan`. With `tan == 0` the horizontal search returns at once with an infinite x, and the vertical hit wins. The model keeps that as the `Beyond` hit. The NaN sub-case is not modelled. It happens at angle 0 with the pivot exactly on a horizontal grid line, where `0/0` makes the horizontal distance NaN and JavaScript keeps the horizontal hit.
- `Rays.Ray.Cast`: stores the SQUARE of the source's `distance`, because the model has no square root. The choice between the two hits is the same, since the square root is increasing on non-negative numbers.
- `Rays.HorizontalHitOnRayLine`: holds only when the sign of the `tan` value agrees with the facing flags (`TanAgrees`), because the trig values are parameters and nothing ties them to the angle. `Rays.VerticalHitOnRayLine` needs the same premise.
- The `Ray` constructor throws for a missing pivot or a non-finite angle (raycast.js:121-123), and `distanceBetweenPoints` throws for a missing point (raycast.js:264-266). In the model a pivot is a non-null `Player` reference, an angle is a real, and both searches always return a point, so neither throw can happen.
- The collision check tests only the candidate point, not the path to it, as in the source.
