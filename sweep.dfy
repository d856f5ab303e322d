/** The frame's shared state and `castAllRays`, which fans one ray per screen column. */
module Sweep {
  import opened Outcomes
  import opened Geometry
  import opened Grids
  import opened Players
  import opened Rays

  /**
   * The angle, before normalization, of the ray for screen column `i`: the fan starts half
   * the field of view left of the heading and turns by FOV / NUM_RAYS per column.
   */
  function ColumnAngle(heading: real, i: int): (a: real)
    requires 0 <= i < NUM_RAYS
    ensures heading - FOV_ANGLE / 2.0 <= a < heading + FOV_ANGLE / 2.0
  {
    var step := FOV_ANGLE / NUM_RAYS as real;
    assert FOV_ANGLE == NUM_RAYS as real * step;
    assert 0.0 <= i as real * step by {
      if i > 0 { ProductPositive(i as real, step); }
    }
    assert i as real * step < FOV_ANGLE by {
      ProductPositive((NUM_RAYS - i) as real, step);
      assert (NUM_RAYS - i) as real * step == FOV_ANGLE - i as real * step;
    }
    heading - FOV_ANGLE / 2.0 + i as real * step
  }

  /** Neighbouring columns are FOV / NUM_RAYS apart. */
  lemma ColumnStep(heading: real, i: int)
    requires 0 < i < NUM_RAYS
    ensures ColumnAngle(heading, i) - ColumnAngle(heading, i - 1) == FOV_ANGLE / NUM_RAYS as real
  {
  }

  /** Later columns get larger angles: the fan is in screen order. */
  lemma ColumnAnglesIncrease(heading: real, i: int, j: int)
    requires 0 <= i < j < NUM_RAYS
    ensures ColumnAngle(heading, i) < ColumnAngle(heading, j)
  {
  }

  /** The ray cast for column `i`: pivoted on the player, at that column's angle, holding its cast. */
  predicate ColumnRay(r: Ray, i: int, player: Player, grid: Grid, trig: Trig)
    requires 0 <= i < NUM_RAYS
    reads r, player
  {
    r.pivot == player &&
    r.angle == NormalizeAngle(ColumnAngle(player.rotationAngle, i)) &&
    r.Resolved(grid, trig)
  }

  /** The globals `grid`, `player` and `rays` of one running frame loop. */
  class Scene {
    const grid: Grid
    const player: Player
    var rays: seq<Ray>

    constructor ()
      ensures grid == STANDARD_GRID && fresh(player) && player.level == Some(STANDARD_GRID)
      ensures player.Clear() && rays == []
    {
      grid := STANDARD_GRID;
      player := new Player(Some(STANDARD_GRID));
      rays := [];
    }

    /**
     * `castAllRays`: replaces `rays` with a fresh ray for each of the NUM_RAYS columns, in
     * column order. An exception while casting column `i` leaves the `i` rays cast before it.
     */
    method CastAllRays(trig: Trig) returns (outcome: Outcome)
      modifies this
      ensures outcome.Pass? ==> |rays| == NUM_RAYS
      ensures outcome.Fail? ==> (
                |rays| < NUM_RAYS &&
                var a := NormalizeAngle(ColumnAngle(player.rotationAngle, |rays|));
                CastResult(grid, Point(player.x, player.y), a, trig.tan(a)) == Err(outcome.error))
      ensures |rays| <= NUM_RAYS
      ensures forall i :: 0 <= i < |rays| ==> fresh(rays[i])
      ensures forall i, j :: 0 <= i < j < |rays| ==> rays[i] != rays[j]
      ensures forall i :: 0 <= i < |rays| ==> ColumnRay(rays[i], i, player, grid, trig)
    {
      var angle := player.rotationAngle - (FOV_ANGLE / 2.0);
      rays := [];
      for i := 0 to NUM_RAYS
        invariant |rays| == i
        invariant i < NUM_RAYS ==> angle == ColumnAngle(player.rotationAngle, i)
        invariant forall k :: 0 <= k < i ==> fresh(rays[k])
        invariant forall k, l :: 0 <= k < l < i ==> rays[k] != rays[l]
        invariant forall k :: 0 <= k < i ==> ColumnRay(rays[k], k, player, grid, trig)
      {
        var ray := new Ray(player, angle);
        var o := ray.Cast(grid, trig);
        if o.Fail? {
          return o;
        }
        rays := rays + [ray];
        angle := angle + FOV_ANGLE / NUM_RAYS as real;
        if i + 1 < NUM_RAYS {
          ColumnStep(player.rotationAngle, i + 1);
        }
      }
      outcome := Pass;
    }
  }
}
